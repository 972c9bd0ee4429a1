/** The shape of every XML payload the bot posts to the fantasy API: fixed
    literal text with plain values spliced between the literals (a template
    literal), and lists of such blocks concatenated.  `Unfill` reads the values
    back; the round-trip lemmas show that a payload carries exactly the values
    it was built from, in order. */
module Xml {
  import opened Optional
  import opened Text

  /** A value without markup: it holds no '<'. */
  predicate Plain(s: string) {
    forall i :: 0 <= i < |s| ==> s[i] != '<'
  }

  /** Literals of a template: every literal after the first opens with a tag,
      so a plain value always ends where the next literal begins. */
  predicate Template(lits: seq<string>) {
    |lits| >= 1 && forall i :: 1 <= i < |lits| ==> |lits[i]| > 0 && lits[i][0] == '<'
  }

  /** `lits[0] + fields[0] + lits[1] + ... + lits[n]` */
  function Fill(lits: seq<string>, fields: seq<string>): string
    requires |lits| == |fields| + 1
    decreases |fields|
  {
    if |fields| == 0 then lits[0] else lits[0] + fields[0] + Fill(lits[1..], fields[1..])
  }

  /** The longest prefix of `s` without a '<'. */
  function TakePlain(s: string): (r: string)
    ensures StartsWith(s, r) && Plain(r)
    ensures |r| == |s| || s[|r|] == '<'
  {
    if |s| == 0 || s[0] == '<' then "" else [s[0]] + TakePlain(s[1..])
  }

  /** Reads the values of one filled template from the front of `s`, and
      returns them with the text that follows. */
  function Unfill(lits: seq<string>, s: string): (r: Option<(seq<string>, string)>)
    requires |lits| >= 1
    ensures r.Some? ==> |r.value.0| + 1 == |lits| && |r.value.1| <= |s| - |lits[0]|
    decreases |lits|
  {
    if !StartsWith(s, lits[0]) then None
    else
      var rest := s[|lits[0]|..];
      if |lits| == 1 then Some(([], rest))
      else
        var f := TakePlain(rest);
        match Unfill(lits[1..], rest[|f|..])
        case None => None
        case Some((fs, tail)) => Some(([f] + fs, tail))
  }

  lemma {:induction false} TakePlainOf(a: string, b: string)
    requires Plain(a)
    requires |b| > 0 && b[0] == '<'
    ensures TakePlain(a + b) == a
    decreases |a|
  {
    if |a| == 0 {
      assert a + b == b;
    } else {
      assert (a + b)[1..] == a[1..] + b;
      TakePlainOf(a[1..], b);
    }
  }

  lemma {:induction false} FillStarts(lits: seq<string>, fields: seq<string>)
    requires |lits| == |fields| + 1
    ensures StartsWith(Fill(lits, fields), lits[0])
  {
    if |fields| > 0 {
      var s := Fill(lits, fields);
      assert s == lits[0] + (fields[0] + Fill(lits[1..], fields[1..]));
    }
  }

  /** Reading a filled template gives back the values and the text after it. */
  lemma {:induction false} UnfillFill(lits: seq<string>, fields: seq<string>, tail: string)
    requires Template(lits) && |lits| == |fields| + 1
    requires forall i :: 0 <= i < |fields| ==> Plain(fields[i])
    ensures Unfill(lits, Fill(lits, fields) + tail) == Some((fields, tail))
    decreases |fields|
  {
    if |fields| == 0 {
      UnfillLast(lits, tail);
    } else {
      var inner := Fill(lits[1..], fields[1..]);
      TemplateRest(lits);
      UnfillFill(lits[1..], fields[1..], tail);
      FillOpensTag(lits, fields);
      UnfillHead(lits, fields[0], inner + tail);
      assert Fill(lits, fields) + tail == lits[0] + fields[0] + (inner + tail);
      assert [fields[0]] + fields[1..] == fields;
    }
  }

  lemma {:induction false} UnfillLast(lits: seq<string>, tail: string)
    requires |lits| == 1
    ensures Unfill(lits, lits[0] + tail) == Some(([], tail))
  {
    var s := lits[0] + tail;
    assert s[..|lits[0]|] == lits[0];
    assert s[|lits[0]|..] == tail;
  }

  lemma {:induction false} TemplateRest(lits: seq<string>)
    requires Template(lits) && |lits| >= 2
    ensures Template(lits[1..])
  {
    forall i | 1 <= i < |lits[1..]| ensures |lits[1..][i]| > 0 && lits[1..][i][0] == '<' {
      assert lits[1..][i] == lits[i + 1];
    }
  }

  /** After the first value, a filled template goes on with a tag. */
  lemma {:induction false} FillOpensTag(lits: seq<string>, fields: seq<string>)
    requires Template(lits) && |lits| == |fields| + 1 && |fields| > 0
    ensures var inner := Fill(lits[1..], fields[1..]);
            |inner| > 0 && inner[0] == '<'
  {
    FillStarts(lits[1..], fields[1..]);
    assert lits[1..][0] == lits[1];
  }

  /** One step of reading: the first literal, then the plain value up to
      the next tag, then the rest of the template. */
  lemma {:induction false} UnfillHead(lits: seq<string>, f: string, t: string)
    requires |lits| >= 2 && Plain(f) && |t| > 0 && t[0] == '<'
    ensures Unfill(lits, lits[0] + f + t)
            == match Unfill(lits[1..], t)
               case None => None
               case Some((fs, tail)) => Some(([f] + fs, tail))
  {
    var s := lits[0] + f + t;
    assert s[..|lits[0]|] == lits[0];
    var rest := s[|lits[0]|..];
    assert rest == f + t;
    TakePlainOf(f, t);
    assert rest[|f|..] == t;
  }

  /** Blocks of one template, concatenated (`rows.map(...).join("")`). */
  function FillAll(lits: seq<string>, rows: seq<seq<string>>): string
    requires forall r :: r in rows ==> |r| + 1 == |lits|
  {
    if |rows| == 0 then "" else Fill(lits, rows[0]) + FillAll(lits, rows[1..])
  }

  /** Reads consecutive blocks of one template until the text runs out. */
  function UnfillAll(lits: seq<string>, s: string): (r: Option<seq<seq<string>>>)
    requires |lits| >= 1 && |lits[0]| > 0
    ensures r.Some? ==> forall row :: row in r.value ==> |row| + 1 == |lits|
    decreases |s|
  {
    if |s| == 0 then Some([])
    else
      match Unfill(lits, s)
      case None => None
      case Some((fs, rest)) =>
        match UnfillAll(lits, rest)
        case None => None
        case Some(more) => Some([fs] + more)
  }

  predicate EndsWith(s: string, suffix: string) {
    |suffix| <= |s| && s[|s| - |suffix|..] == suffix
  }

  /** Two literals that differ at position `k` cannot both open `s`. */
  lemma {:induction false} NotStartsWith(s: string, lit: string, other: string, k: nat)
    requires StartsWith(s, other)
    requires k < |lit| && k < |other| && lit[k] != other[k]
    ensures !StartsWith(s, lit)
  {
    assert s[k] == other[k];
  }

  predicate PlainRows(rows: seq<seq<string>>) {
    forall r, i :: r in rows && 0 <= i < |r| ==> Plain(r[i])
  }

  /** Reading concatenated blocks gives back every block's values, in order. */
  lemma {:induction false} UnfillAllFillAll(lits: seq<string>, rows: seq<seq<string>>)
    requires Template(lits) && |lits[0]| > 0
    requires forall r :: r in rows ==> |r| + 1 == |lits|
    requires PlainRows(rows)
    ensures UnfillAll(lits, FillAll(lits, rows)) == Some(rows)
    decreases |rows|
  {
    if |rows| > 0 {
      var s := FillAll(lits, rows);
      var rest := FillAll(lits, rows[1..]);
      assert rows[0] in rows;
      UnfillFill(lits, rows[0], rest);
      FillStarts(lits, rows[0]);
      assert |s| > 0;
      assert forall r :: r in rows[1..] ==> r in rows;
      UnfillAllFillAll(lits, rows[1..]);
      assert [rows[0]] + rows[1..] == rows;
    }
  }

  /** Reads blocks of `lits` followed by the closing text `tail`, which ends `s`. */
  function ReadRows(lits: seq<string>, tail: string, s: string): (r: Option<seq<seq<string>>>)
    requires |lits| >= 1 && |lits[0]| > 0
    ensures r.Some? ==> forall row :: row in r.value ==> |row| + 1 == |lits|
  {
    if !EndsWith(s, tail) then None else UnfillAll(lits, s[..|s| - |tail|])
  }

  lemma {:induction false} ReadRowsFill(lits: seq<string>, rows: seq<seq<string>>, tail: string)
    requires Template(lits) && |lits[0]| > 0
    requires forall r :: r in rows ==> |r| + 1 == |lits|
    requires PlainRows(rows)
    ensures ReadRows(lits, tail, FillAll(lits, rows) + tail) == Some(rows)
  {
    var body := FillAll(lits, rows);
    assert (body + tail)[..|body|] == body;
    assert (body + tail)[|body|..] == tail;
    UnfillAllFillAll(lits, rows);
  }

  /** Reads a payload made of a head template, blocks of a row template, and
      closing text. */
  function ReadFramed(head: seq<string>, lits: seq<string>, tail: string, s: string)
    : (r: Option<(seq<string>, seq<seq<string>>)>)
    requires |head| >= 1 && |lits| >= 1 && |lits[0]| > 0
    ensures r.Some? ==> |r.value.0| + 1 == |head|
    ensures r.Some? ==> forall row :: row in r.value.1 ==> |row| + 1 == |lits|
  {
    match Unfill(head, s)
    case None => None
    case Some((fs, rest)) =>
      match ReadRows(lits, tail, rest)
      case None => None
      case Some(rows) => Some((fs, rows))
  }

  lemma {:induction false} ReadFramedFill(head: seq<string>, fields: seq<string>, lits: seq<string>,
                       rows: seq<seq<string>>, tail: string)
    requires Template(head) && |head| == |fields| + 1
    requires forall i :: 0 <= i < |fields| ==> Plain(fields[i])
    requires Template(lits) && |lits[0]| > 0
    requires forall r :: r in rows ==> |r| + 1 == |lits|
    requires PlainRows(rows)
    ensures ReadFramed(head, lits, tail, Fill(head, fields) + (FillAll(lits, rows) + tail)) == Some((fields, rows))
  {
    var rest := FillAll(lits, rows) + tail;
    UnfillFill(head, fields, rest);
    ReadRowsFill(lits, rows, tail);
  }
}
