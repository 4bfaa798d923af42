/**
 * The CSV encoding of the cashier report: every field wrapped in double quotes with
 * each inner quote doubled, fields joined by commas (section 2 of RFC 4180). A reader
 * for quoted records is defined beside it, and the round trip is proved: reading an
 * encoded record gives back exactly its fields, whatever characters they hold.
 */
module Csv {
  import opened Common
  import opened Text

  /** `s.replace(/"/g, '""')`. */
  function Escape(s: string): (r: string)
    ensures |r| >= |s|
    ensures '"' !in s ==> r == s
  {
    if s == [] then []
    else (if s[0] == '"' then "\"\"" else [s[0]]) + Escape(s[1..])
  }

  /** `"${String(v).replace(/"/g,'""')}"`. */
  function Quote(s: string): (r: string)
    ensures |r| >= 2 && r[0] == '"' && r[|r| - 1] == '"'
  {
    "\"" + Escape(s) + "\""
  }

  function QuoteAll(fields: seq<string>): (r: seq<string>)
    ensures |r| == |fields|
    ensures forall i :: 0 <= i < |r| ==> r[i] == Quote(fields[i])
  {
    seq(|fields|, i requires 0 <= i < |fields| => Quote(fields[i]))
  }

  /** One record: the quoted fields joined by commas. */
  function Record(fields: seq<string>): string
  {
    Join(QuoteAll(fields), ",")
  }

  /**
   * Reads the body of a quoted field, starting just after its opening quote: a doubled
   * quote stands for one quote, a single quote closes the field. Answers the field and
   * the text after the closing quote.
   */
  function Unquote(s: string): (r: Option<(string, string)>)
    ensures r.Some? ==> |r.value.1| < |s|
    decreases |s|
  {
    if s == [] then None
    else if s[0] == '"' then
      if |s| >= 2 && s[1] == '"' then
        match Unquote(s[2..])
        case None => None
        case Some((body, rest)) => Some(("\"" + body, rest))
      else Some(("", s[1..]))
    else
      match Unquote(s[1..])
      case None => None
      case Some((body, rest)) => Some(([s[0]] + body, rest))
  }

  /** Reads a record of quoted fields separated by commas, up to the end of the text. */
  function ParseRecord(s: string): (r: Option<seq<string>>)
    ensures r.Some? ==> |r.value| > 0
    decreases |s|
  {
    if s == [] || s[0] != '"' then None
    else
      match Unquote(s[1..])
      case None => None
      case Some((body, rest)) =>
        if rest == [] then Some([body])
        else if rest[0] != ',' then None
        else
          match ParseRecord(rest[1..])
          case None => None
          case Some(more) => Some([body] + more)
  }

  /** A doubled quote inside a field reads as one quote. */
  lemma UnquoteDoubled(u: string, body: string, rest: string)
    requires Unquote(u) == Some((body, rest))
    ensures Unquote("\"\"" + u) == Some(("\"" + body, rest))
  {
    assert ("\"\"" + u)[2..] == u;
  }

  /** Any other character inside a field reads as itself. */
  lemma UnquotePlain(c: char, u: string, body: string, rest: string)
    requires c != '"' && Unquote(u) == Some((body, rest))
    ensures Unquote([c] + u) == Some(([c] + body, rest))
  {
    assert ([c] + u)[1..] == u;
  }

  /** Escaping works one character at a time. */
  lemma EscapeCons(s: string)
    requires s != []
    ensures Escape(s) == (if s[0] == '"' then "\"\"" else [s[0]]) + Escape(s[1..])
  {
  }

  /** An escaped body followed by its closing quote reads back as the original text. */
  lemma {:induction false} UnquoteEscape(s: string, tail: string)
    requires tail == [] || tail[0] != '"'
    ensures Unquote(Escape(s) + "\"" + tail) == Some((s, tail))
    decreases |s|
  {
    if s == [] {
      var t := "\"" + tail;
      assert Escape(s) + "\"" + tail == t;
      assert t[1..] == tail;
    } else {
      var u := Escape(s[1..]) + "\"" + tail;
      var head := if s[0] == '"' then "\"\"" else [s[0]];
      EscapeCons(s);
      assert Escape(s) + "\"" + tail == head + u;
      UnquoteEscape(s[1..], tail);
      if s[0] == '"' {
        UnquoteDoubled(u, s[1..], tail);
        assert "\"" + s[1..] == s;
      } else {
        UnquotePlain(s[0], u, s[1..], tail);
        assert [s[0]] + s[1..] == s;
      }
    }
  }

  /** A record of two or more fields is the first quoted field, a comma, and the rest. */
  lemma RecordCons(fields: seq<string>)
    requires |fields| >= 2
    ensures Record(fields) == Quote(fields[0]) + "," + Record(fields[1..])
  {
    assert QuoteAll(fields) == [Quote(fields[0])] + QuoteAll(fields[1..]);
  }

  /** A quoted field followed by a comma and a readable record reads as one more field. */
  lemma ParseRecordCons(first: string, rest: string, more: seq<string>)
    requires ParseRecord(rest) == Some(more)
    ensures ParseRecord(Quote(first) + "," + rest) == Some([first] + more)
  {
    var tail := "," + rest;
    UnquoteEscape(first, tail);
    var t := Quote(first) + "," + rest;
    assert t[0] == '"';
    assert t[1..] == Escape(first) + "\"" + tail;
    assert tail[1..] == rest;
  }

  /** Reading an encoded record gives back its fields: the RFC 4180 round trip. */
  lemma {:induction false} RecordRoundTrip(fields: seq<string>)
    requires fields != []
    ensures ParseRecord(Record(fields)) == Some(fields)
    decreases |fields|
  {
    var first := fields[0];
    if |fields| == 1 {
      assert Record(fields) == Quote(first);
      UnquoteEscape(first, "");
      assert Quote(first)[1..] == Escape(first) + "\"" + "";
      assert fields == [first];
    } else {
      RecordCons(fields);
      RecordRoundTrip(fields[1..]);
      ParseRecordCons(first, Record(fields[1..]), fields[1..]);
      assert [first] + fields[1..] == fields;
    }
  }

  /** Encoding is injective: different field lists never give the same record. */
  lemma RecordInjective(a: seq<string>, b: seq<string>)
    requires a != [] && b != [] && Record(a) == Record(b)
    ensures a == b
  {
    RecordRoundTrip(a);
    RecordRoundTrip(b);
  }
}
