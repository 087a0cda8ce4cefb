/**
 * Query strings: percent-encoding, section 2.1 of RFC 3986, with '+' for a space;
 * appending a parameter; and splitting a query into its fields.
 *
 * The set of characters that are left alone is a parameter, `keep`: everything
 * here holds for any table that escapes the characters with a meaning of their
 * own in a query. Characters stand for bytes.
 */
module QueryStrings {
  type Field = (string, string)

  predicate PrintableChar(c: char) {
    32 <= c as int < 127
  }

  predicate Printable(s: string) {
    forall i :: 0 <= i < |s| ==> PrintableChar(s[i])
  }

  /** Tables that escape everything that has a meaning in a query. */
  predicate Table(keep: set<char>) {
    && {' ', '%', '+', '&', '=', '#'} !! keep
    && (forall c :: c in keep ==> PrintableChar(c))
  }

  // ------------------------------------------------------------------ escaping

  function HexDigit(n: int): (c: char)
    requires 0 <= n < 16
    ensures HexValue(c) == n
  {
    if n < 10 then (n + '0' as int) as char else (n - 10 + 'A' as int) as char
  }

  /** The value of a hex digit of either case, or -1. */
  function HexValue(c: char): int {
    if '0' <= c <= '9' then c as int - '0' as int
    else if 'A' <= c <= 'F' then c as int - 'A' as int + 10
    else if 'a' <= c <= 'f' then c as int - 'a' as int + 10
    else -1
  }

  function EscapedChar(keep: set<char>, c: char): string {
    if c in keep then [c]
    else if c == ' ' then "+"
    else ['%', HexDigit(c as int / 16 % 16), HexDigit(c as int % 16)]
  }

  function Escaped(keep: set<char>, s: string): string {
    if s == [] then [] else EscapedChar(keep, s[0]) + Escaped(keep, s[1..])
  }

  /** A percent sign that starts the code of a printable character. */
  predicate Coded(s: string) {
    && |s| >= 3 && s[0] == '%' && HexValue(s[1]) >= 0 && HexValue(s[2]) >= 0
    && 32 <= HexValue(s[1]) * 16 + HexValue(s[2]) < 127
  }

  function Unescaped(s: string): string {
    if s == [] then []
    else if s[0] == '+' then " " + Unescaped(s[1..])
    else if Coded(s) then [(HexValue(s[1]) * 16 + HexValue(s[2])) as char] + Unescaped(s[3..])
    else [s[0]] + Unescaped(s[1..])
  }

  lemma UnescapeOneChar(keep: set<char>, c: char, rest: string)
    requires Table(keep) && PrintableChar(c)
    ensures Unescaped(EscapedChar(keep, c) + rest) == [c] + Unescaped(rest)
  {
    var code := EscapedChar(keep, c);
    var s := code + rest;
    if c in keep || c == ' ' {
      assert s[0] == code[0] && s[1..] == rest;
    } else {
      assert c as int / 16 % 16 == c as int / 16;
      assert s[0] == '%' && s[1] == code[1] && s[2] == code[2] && s[3..] == rest;
      assert HexValue(s[1]) * 16 + HexValue(s[2]) == c as int;
    }
  }

  /** Main result: unescaping undoes escaping, for any printable text. */
  lemma {:induction false} EscapeRoundTrip(keep: set<char>, s: string)
    requires Table(keep) && Printable(s)
    ensures Unescaped(Escaped(keep, s)) == s
    decreases |s|
  {
    if s != [] {
      EscapeRoundTrip(keep, s[1..]);
      UnescapeOneChar(keep, s[0], Escaped(keep, s[1..]));
    }
  }

  /** What escaping produces cannot be mistaken for a separator. */
  lemma {:induction false} EscapedIsOneToken(keep: set<char>, s: string)
    requires Table(keep)
    ensures '&' !in Escaped(keep, s) && '=' !in Escaped(keep, s) && '#' !in Escaped(keep, s)
    ensures ' ' !in Escaped(keep, s)
    decreases |s|
  {
    if s != [] {
      EscapedIsOneToken(keep, s[1..]);
    }
  }

  /** Text that needs no escaping. */
  predicate Plain(keep: set<char>, s: string) {
    forall i :: 0 <= i < |s| ==> s[i] in keep
  }

  /** Escaping leaves exactly the plain texts alone; it makes all others longer,
      unless only spaces are replaced. */
  lemma {:induction false} EscapeChangesUnlessPlain(keep: set<char>, s: string)
    requires Table(keep)
    ensures Escaped(keep, s) == s <==> Plain(keep, s)
    ensures |Escaped(keep, s)| >= |s|
    ensures ' ' !in s && !Plain(keep, s) ==> |Escaped(keep, s)| > |s|
    ensures !Plain(keep, s) ==> !Plain(keep, Escaped(keep, s))
    decreases |s|
  {
    if s != [] {
      var head, tail := EscapedChar(keep, s[0]), s[1..];
      EscapeChangesUnlessPlain(keep, tail);
      assert s == [s[0]] + tail;
      assert Escaped(keep, s) == head + Escaped(keep, tail);
      assert forall i :: 0 <= i < |tail| ==> tail[i] == s[i + 1];
      if s[0] in keep {
        assert Plain(keep, s) <==> Plain(keep, tail);
        assert Escaped(keep, s)[1..] == Escaped(keep, tail);
        if !Plain(keep, tail) {
          var i :| 0 <= i < |Escaped(keep, tail)| && Escaped(keep, tail)[i] !in keep;
          assert Escaped(keep, s)[i + 1] !in keep;
        }
      } else {
        assert Escaped(keep, s)[0] == head[0] && head[0] !in keep;
      }
    }
  }

  // -------------------------------------------------------------------- fields

  /** AppendQueryParameter. */
  function Appended(keep: set<char>, query: string, f: Field): string {
    (if query != [] then query + "&" else query) + Encoded(keep, f)
  }

  function Encoded(keep: set<char>, f: Field): string {
    Escaped(keep, f.0) + "=" + Escaped(keep, f.1)
  }

  /** The length of the part of `s` before the first character of `stops`. */
  function Span(s: string, stops: set<char>): (n: nat)
    ensures n <= |s|
    ensures forall i :: 0 <= i < n ==> s[i] !in stops
    ensures n < |s| ==> s[n] in stops
  {
    if s == [] || s[0] in stops then 0 else 1 + Span(s[1..], stops)
  }

  lemma SpanOfPrefix(a: string, rest: string, stops: set<char>)
    requires forall c :: c in a ==> c !in stops
    requires rest == [] || rest[0] in stops
    ensures Span(a + rest, stops) == |a|
  {
    var s := a + rest;
    assert forall i :: 0 <= i < |a| ==> s[i] == a[i];
    assert rest != [] ==> s[|a|] == rest[0];
  }

  /** A field is a key, up to the first '=', and the value behind it. */
  function FieldOf(text: string): Field {
    var k := Span(text, {'='});
    (text[..k], text[if k < |text| then k + 1 else k..])
  }

  /** The key and value at the front of a query, up to the first '&', and the rest. */
  function Split(query: string): (r: (string, string, string))
    ensures query != [] ==> |r.2| < |query|
  {
    var n := Span(query, {'&'});
    var f := FieldOf(query[..n]);
    (f.0, f.1, query[if n < |query| then n + 1 else n..])
  }

  /** The fields of a query as they stand, key and value still escaped. */
  function RawFields(query: string): seq<Field>
    decreases |query|
  {
    if query == [] then []
    else
      var (key, value, rest) := Split(query);
      [(key, value)] + RawFields(rest)
  }

  function RawField(keep: set<char>, f: Field): Field {
    (Escaped(keep, f.0), Escaped(keep, f.1))
  }

  /** One field and a separator in front of a query. */
  lemma RawFieldsCons(text: string, rest: string)
    requires '&' !in text && text + rest != []
    requires rest == [] || rest[0] == '&'
    ensures RawFields(text + rest) == [FieldOf(text)] + RawFields(if rest == [] then [] else rest[1..])
  {
    SpanOfPrefix(text, rest, {'&'});
    assert (text + rest)[..|text|] == text;
    if rest != [] { assert (text + rest)[|text| + 1..] == rest[1..]; }
  }

  lemma FieldOfPair(key: string, value: string)
    requires '=' !in key
    ensures FieldOf(key + ("=" + value)) == (key, value)
  {
    var text := key + ("=" + value);
    SpanOfPrefix(key, "=" + value, {'='});
    assert text[..|key|] == key && text[|key| + 1..] == value;
  }

  lemma FieldsCons(keep: set<char>, f: Field, rest: string)
    requires Table(keep) && (rest == [] || rest[0] == '&')
    ensures RawFields(Encoded(keep, f) + rest) ==
              [RawField(keep, f)] + RawFields(if rest == [] then [] else rest[1..])
  {
    var key, value := Escaped(keep, f.0), Escaped(keep, f.1);
    EscapedIsOneToken(keep, f.0);
    EscapedIsOneToken(keep, f.1);
    assert key + "=" + value == key + ("=" + value);
    FieldOfPair(key, value);
    RawFieldsCons(Encoded(keep, f), rest);
  }

  /** The query that holds the given fields. */
  function Joined(keep: set<char>, fields: seq<Field>): string {
    if fields == [] then []
    else if |fields| == 1 then Encoded(keep, fields[0])
    else Encoded(keep, fields[0]) + ("&" + Joined(keep, fields[1..]))
  }

  /** Appending a parameter adds it at the end. */
  lemma {:induction false} AppendJoins(keep: set<char>, fields: seq<Field>, f: Field)
    ensures Appended(keep, Joined(keep, fields), f) == Joined(keep, fields + [f])
    decreases |fields|
  {
    if fields == [] {
      assert [] + [f] == [f];
      assert "" + Encoded(keep, f) == Encoded(keep, f);
    } else {
      var rest := fields[1..];
      assert (fields + [f])[0] == fields[0] && (fields + [f])[1..] == rest + [f];
      if rest == [] {
        assert rest + [f] == [f] && fields == [fields[0]];
        Reassociate(Encoded(keep, fields[0]), [], Encoded(keep, f));
      } else {
        AppendJoins(keep, rest, f);
        Reassociate(Encoded(keep, fields[0]), "&" + Joined(keep, rest), Encoded(keep, f));
      }
    }
  }

  lemma Reassociate(a: string, b: string, c: string)
    ensures (a + b) + "&" + c == a + (b + "&" + c)
  {
  }

  function AllRaw(keep: set<char>, fields: seq<Field>): seq<Field> {
    seq(|fields|, i requires 0 <= i < |fields| => RawField(keep, fields[i]))
  }

  lemma AllRawCons(keep: set<char>, fields: seq<Field>)
    requires fields != []
    ensures AllRaw(keep, fields) == [RawField(keep, fields[0])] + AllRaw(keep, fields[1..])
  {
  }

  lemma JoinedCons(keep: set<char>, fields: seq<Field>) returns (rest: string)
    requires fields != []
    ensures Joined(keep, fields) == Encoded(keep, fields[0]) + rest
    ensures rest == [] || rest[0] == '&'
    ensures (if rest == [] then [] else rest[1..]) == Joined(keep, fields[1..])
  {
    rest := if |fields| == 1 then [] else "&" + Joined(keep, fields[1..]);
    if |fields| == 1 {
      assert Encoded(keep, fields[0]) + [] == Encoded(keep, fields[0]);
    }
  }

  /** Main result: splitting gives back the fields that were joined. */
  lemma {:induction false} FieldsRoundTrip(keep: set<char>, fields: seq<Field>)
    requires Table(keep)
    ensures RawFields(Joined(keep, fields)) == AllRaw(keep, fields)
    decreases |fields|
  {
    if fields != [] {
      var rest := JoinedCons(keep, fields);
      FieldsCons(keep, fields[0], rest);
      FieldsRoundTrip(keep, fields[1..]);
      AllRawCons(keep, fields);
    }
  }

  // ------------------------------------------- queries that have fields already

  /** A query with more fields appended. */
  function Extended(keep: set<char>, query: string, fields: seq<Field>): string {
    if fields == [] then query
    else if query == [] then Joined(keep, fields)
    else query + ("&" + Joined(keep, fields))
  }

  lemma AppendExtends(keep: set<char>, query: string, fields: seq<Field>, f: Field)
    ensures Appended(keep, Extended(keep, query, fields), f) == Extended(keep, query, fields + [f])
  {
    AppendJoins(keep, fields, f);
    if fields == [] {
      assert [] + [f] == [f];
      assert query + "&" + Encoded(keep, f) == query + ("&" + Encoded(keep, f));
    } else if query != [] {
      NonEmptyJoin(keep, fields);
      AppendTo(query, Joined(keep, fields), Encoded(keep, f));
    } else {
      NonEmptyJoin(keep, fields);
    }
  }

  lemma NonEmptyJoin(keep: set<char>, fields: seq<Field>)
    requires fields != []
    ensures Joined(keep, fields) != []
  {
  }

  lemma AppendTo(a: string, b: string, c: string)
    ensures a + ("&" + b) + "&" + c == a + ("&" + (b + "&" + c))
  {
  }

  /** A trailing separator leaves a field without key and value before the next. */
  function Gap(query: string): seq<Field> {
    if query == [] || query[|query| - 1] == '&' then [("", "")] else []
  }

  lemma RawFieldsBefore(text: string, rest: string)
    requires '&' !in text
    ensures RawFields(text + ("&" + rest)) == [FieldOf(text)] + RawFields(rest)
  {
    RawFieldsCons(text, "&" + rest);
    assert ("&" + rest)[1..] == rest;
  }

  lemma SpanOfAll(s: string, stops: set<char>)
    requires forall c :: c in s ==> c !in stops
    ensures Span(s, stops) == |s|
  {
    assert forall i :: 0 <= i < |s| ==> s[i] !in stops;
  }

  lemma SplitOfOne(text: string)
    requires '&' !in text
    ensures Split(text) == (FieldOf(text).0, FieldOf(text).1, [])
  {
    SpanOfAll(text, {'&'});
    assert text[..|text|] == text && text[|text|..] == [];
  }

  lemma OneField(text: string)
    requires text != [] && '&' !in text
    ensures RawFields(text) == [FieldOf(text)] && Gap(text) == []
  {
    SplitOfOne(text);
    assert RawFields(text) == [(FieldOf(text).0, FieldOf(text).1)] + RawFields([]);
    assert text[|text| - 1] in text;
  }

  /** A field without '=' has an empty value. */
  lemma KeyAlone(key: string)
    requires key != [] && '&' !in key && '=' !in key
    ensures RawFields(key) == [(key, "")]
  {
    OneField(key);
    SpanOfAll(key, {'='});
    assert key[..|key|] == key && key[|key|..] == [];
  }

  lemma NoText()
    ensures FieldOf([]) == ("", "") && RawFields([]) == [] && Gap([]) == [("", "")]
  {
  }

  lemma LoneField(text: string)
    requires '&' !in text
    ensures RawFields(text) + Gap(text) == [FieldOf(text)]
  {
    if text == [] { NoText(); } else { OneField(text); }
  }

  /** Fields after a separator follow the fields before it. */
  lemma {:induction false} RawFieldsJoin(query: string, more: string)
    ensures RawFields(query + ("&" + more)) == RawFields(query) + Gap(query) + RawFields(more)
    decreases |query|
  {
    var n := Span(query, {'&'});
    if n < |query| {
      RawFieldsJoin(query[n + 1..], more);
      FieldInFront(query, n, more);
    } else {
      assert '&' !in query;
      RawFieldsBefore(query, more);
      LoneField(query);
    }
  }

  lemma FieldInFront(query: string, n: nat, more: string)
    requires n < |query| && query[n] == '&' && '&' !in query[..n]
    requires var rest := query[n + 1..];
      RawFields(rest + ("&" + more)) == RawFields(rest) + Gap(rest) + RawFields(more)
    ensures RawFields(query + ("&" + more)) == RawFields(query) + Gap(query) + RawFields(more)
  {
    var text, rest := query[..n], query[n + 1..];
    Reattach(query, n, more);
    RawFieldsBefore(text, rest);
    RawFieldsBefore(text, rest + ("&" + more));
    GapOfRest(query, n);
    Regroup([FieldOf(text)], RawFields(rest), Gap(rest), RawFields(more));
  }

  lemma Regroup(a: seq<Field>, b: seq<Field>, c: seq<Field>, d: seq<Field>)
    ensures a + (b + c + d) == a + b + c + d
  {
  }

  lemma Reattach(query: string, n: nat, more: string)
    requires n < |query| && query[n] == '&'
    ensures var text, rest := query[..n], query[n + 1..];
      query == text + ("&" + rest) && query + ("&" + more) == text + ("&" + (rest + ("&" + more)))
  {
    assert query == query[..n] + query[n..] && query[n..] == "&" + query[n + 1..];
  }

  lemma GapOfRest(query: string, n: nat)
    requires n < |query| && query[n] == '&'
    ensures Gap(query[n + 1..]) == Gap(query)
  {
    var rest := query[n + 1..];
    if rest != [] { assert rest[|rest| - 1] == query[|query| - 1]; }
  }

  /** The fields a query has of its own, before others are appended. */
  function Own(query: string, fields: seq<Field>): seq<Field> {
    if query == [] || fields == [] then RawFields(query) else RawFields(query) + Gap(query)
  }

  /** Main result: splitting an extended query gives its own fields and then the
      appended ones. */
  lemma ExtendedFields(keep: set<char>, query: string, fields: seq<Field>)
    requires Table(keep)
    ensures RawFields(Extended(keep, query, fields)) == Own(query, fields) + AllRaw(keep, fields)
  {
    FieldsRoundTrip(keep, fields);
    if fields != [] && query != [] {
      RawFieldsJoin(query, Joined(keep, fields));
    }
  }
}
