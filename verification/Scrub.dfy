/**
 Log redaction: the registry of secrets, the replacement loop and the log filter.

 The loop visits the registered secrets in an order nobody controls, and every
 replacement inserts text of its own.  The results here say exactly which secrets are
 gone whatever else is registered and whatever the order.
 */
module Scrub {
  import opened Common

  const MIN_SECRET_LEN := 8
  const REDACTED := "[REDACTED]"

  predicate OccursAt(text: string, s: string, i: int) {
    0 <= i <= |text| - |s| && text[i..i + |s|] == s
  }

  predicate Contains(text: string, s: string) {
    exists i :: 0 <= i <= |text| - |s| && OccursAt(text, s, i)
  }

  // str.replace: leftmost occurrences that do not overlap.
  function Replace(text: string, s: string): string
    requires s != ""
  {
    if |text| < |s| then text
    else if text[..|s|] == s then REDACTED + Replace(text[|s|..], s)
    else [text[0]] + Replace(text[1..], s)
  }

  // Pieces of text with the same glue between them.
  function Weave(pieces: seq<string>, glue: string): string
    requires pieces != []
  {
    if |pieces| == 1 then pieces[0] else pieces[0] + glue + Weave(pieces[1..], glue)
  }

  // What a text begins with, up to the end of the first occurrence at which it is cut.
  function Head(pieces: seq<string>, s: string): string
    requires pieces != []
  {
    pieces[0] + if |pieces| == 1 then "" else s
  }

  ghost predicate FreeBefore(text: string, s: string, n: nat) {
    forall q :: 0 <= q < n ==> !OccursAt(text, s, q)
  }

  // The cut of a text at its leftmost occurrences of s: none begins before the end of a piece.
  ghost predicate CutAt(pieces: seq<string>, s: string)
    requires pieces != []
  {
    FreeBefore(Head(pieces, s), s, |pieces[0]|) && (|pieces| > 1 ==> CutAt(pieces[1..], s))
  }

  /** Replacement puts the marker exactly where the leftmost occurrences were, and keeps every piece of text around them. */
  lemma {:induction false} ReplaceKeepsTheRest(text: string, s: string) returns (pieces: seq<string>)
    requires s != ""
    ensures pieces != [] && CutAt(pieces, s)
    ensures text == Weave(pieces, s) && Replace(text, s) == Weave(pieces, "[REDACTED]")
    decreases |text|
  {
    if |text| < |s| {
      pieces := [text];
    } else if text[..|s|] == s {
      var rest := ReplaceKeepsTheRest(text[|s|..], s);
      pieces := [""] + rest;
      assert pieces[1..] == rest;
      assert text == s + text[|s|..];
    } else {
      var rest := ReplaceKeepsTheRest(text[1..], s);
      pieces := [[text[0]] + rest[0]] + rest[1..];
      LongerCut(text, s, rest);
      LongerWeave(text[0], rest, s);
      LongerWeave(text[0], rest, REDACTED);
      assert text == [text[0]] + text[1..];
    }
  }

  lemma LongerWeave(c: char, rest: seq<string>, glue: string)
    requires rest != []
    ensures Weave([[c] + rest[0]] + rest[1..], glue) == [c] + Weave(rest, glue)
  {
    assert ([[c] + rest[0]] + rest[1..])[1..] == rest[1..];
    if |rest| > 1 {
      assert [c] + rest[0] + glue + Weave(rest[1..], glue) == [c] + (rest[0] + glue + Weave(rest[1..], glue));
    }
  }

  // A text that does not begin with s, and is free of it one character further on.
  lemma LongerPiece(first: string, text: string, s: string, n: nat)
    requires s != "" && |s| <= |text| && text[..|s|] != s && first != "" && first <= text
    requires FreeBefore(first[1..], s, n)
    ensures FreeBefore(first, s, n + 1)
  {
    forall q | 0 <= q < n + 1 ensures !OccursAt(first, s, q) {
      if q == 0 {
        assert |first| >= |s| ==> first[0..0 + |s|] == text[..|s|];
      } else if q <= |first| {
        LaterOccurrence(first, s, q);
      }
    }
  }

  // One more character in front of the first piece.
  lemma LongerCut(text: string, s: string, rest: seq<string>)
    requires s != "" && |text| >= |s| && text[..|s|] != s
    requires rest != [] && CutAt(rest, s) && text[1..] == Weave(rest, s)
    ensures CutAt([[text[0]] + rest[0]] + rest[1..], s)
  {
    var pieces := [[text[0]] + rest[0]] + rest[1..];
    assert pieces[1..] == rest[1..];
    var head := Head(pieces, s);
    assert head[1..] == Head(rest, s);
    assert Head(rest, s) <= text[1..];
    assert head <= text by {
      assert head == [text[0]] + Head(rest, s) && text == [text[0]] + text[1..];
    }
    LongerPiece(head, text, s, |rest[0]|);
  }

  lemma LaterOccurrence(text: string, s: string, q: nat)
    requires 0 < q <= |text|
    ensures OccursAt(text, s, q) <==> OccursAt(text[1..], s, q - 1)
  {
    if q + |s| <= |text| {
      assert text[q..q + |s|] == text[1..][q - 1..q - 1 + |s|];
    }
  }

  function Redact(text: string, s: string): string
    requires s != ""
  {
    if Contains(text, s) then Replace(text, s) else text
  }

  ghost predicate Registrable(order: seq<string>) {
    forall s :: s in order ==> |s| >= MIN_SECRET_LEN
  }

  // The replacement loop, for one order in which the registry may be listed.
  ghost function ScrubIn(order: seq<string>, text: string): string
    requires Registrable(order)
  {
    if order == [] then text
    else ScrubIn(order[1..], Redact(text, order[0]))
  }

  // u can be laid over the marker, at offset d from its start, so that they agree wherever both are defined.
  ghost predicate Aligns(u: string, d: int) {
    && -|u| < d < |REDACTED|
    && forall j :: 0 <= j < |u| && 0 <= d + j < |REDACTED| ==> u[j] == REDACTED[d + j]
  }

  ghost predicate Touches(u: string) {
    exists d :: Aligns(u, d)
  }

  // u never survives, whatever the text, whatever else is registered and in whatever order.
  ghost predicate Robust(u: string) {
    forall order: seq<string>, text: string :: Registrable(order) && u in order ==> !Contains(ScrubIn(order, text), u)
  }

  lemma AlignsAt(u: string, k: nat, p: nat, rest: string)
    requires k < |u| && p < |REDACTED| && (k == 0 || p == 0)
    requires u[k..] <= (REDACTED + rest)[p..]
    ensures Aligns(u, p - k)
  {
    forall j | 0 <= j < |u| && 0 <= p - k + j < |REDACTED| ensures u[j] == REDACTED[p - k + j] {
      assert u[k..][j - k] == (REDACTED + rest)[p..][j - k];
    }
  }

  /** Replacement cannot assemble the start of a secret out of marker text. */
  lemma {:induction false} PrefixKept(text: string, s: string, u: string, k: nat)
    requires s != "" && k <= |u| && !Touches(u)
    requires u[k..] <= Replace(text, s)
    ensures u[k..] <= text
    decreases |text|
  {
    if |text| < |s| || k == |u| {
    } else if text[..|s|] == s {
      AlignsAt(u, k, 0, Replace(text[|s|..], s));
    } else {
      assert u[k..][1..] == u[k + 1..] && Replace(text, s)[1..] == Replace(text[1..], s);
      PrefixKept(text[1..], s, u, k + 1);
      assert u[k..] == [text[0]] + u[k + 1..] && text == [text[0]] + text[1..];
    }
  }

  lemma OccursBehind(front: string, rest: string, u: string, p: nat)
    requires |front| <= p && OccursAt(front + rest, u, p)
    ensures OccursAt(rest, u, p - |front|)
  {
    assert (front + rest)[p..p + |u|] == rest[p - |front|..p - |front| + |u|];
  }

  lemma StartsInMarker(rest: string, u: string, p: nat)
    requires p < |REDACTED| && OccursAt(REDACTED + rest, u, p) && u != ""
    ensures Touches(u)
  {
    AlignsAt(u, 0, p, rest);
  }

  lemma StartsHere(text: string, s: string, u: string)
    requires s != "" && !Touches(u) && OccursAt(Replace(text, s), u, 0)
    ensures OccursAt(text, u, 0)
  {
    assert u[0..] == u && Replace(text, s)[..|u|] == u;
    PrefixKept(text, s, u, 0);
  }

  /** Replacing one secret never brings another one back. */
  lemma {:induction false} NoRevival(text: string, s: string, u: string, p: nat)
    requires s != "" && u != "" && !Touches(u)
    requires OccursAt(Replace(text, s), u, p)
    ensures Contains(text, u)
    ensures u != s
    decreases |text|
  {
    if |text| < |s| {
      assert OccursAt(text, u, p);
    } else if text[..|s|] == s {
      var rest := Replace(text[|s|..], s);
      if p < |REDACTED| {
        StartsInMarker(rest, u, p);
      } else {
        OccursBehind(REDACTED, rest, u, p);
        NoRevival(text[|s|..], s, u, p - |REDACTED|);
        ContainsInTail(text, |s|, u);
      }
    } else if p == 0 {
      StartsHere(text, s, u);
    } else {
      OccursBehind([text[0]], Replace(text[1..], s), u, p);
      NoRevival(text[1..], s, u, p - 1);
      ContainsInTail(text, 1, u);
    }
  }

  lemma ContainsInTail(text: string, n: nat, u: string)
    requires n <= |text| && Contains(text[n..], u)
    ensures Contains(text, u)
  {
    var i :| 0 <= i <= |text[n..]| - |u| && OccursAt(text[n..], u, i);
    assert text[n..][i..i + |u|] == text[n + i..n + i + |u|];
    assert OccursAt(text, u, n + i);
  }

  lemma RedactKeepsAbsence(text: string, s: string, u: string)
    requires s != "" && u != "" && !Touches(u)
    requires u == s || !Contains(text, u)
    ensures !Contains(Redact(text, s), u)
  {
    if Contains(Redact(text, s), u) && Contains(text, s) {
      var p :| 0 <= p <= |Replace(text, s)| - |u| && OccursAt(Replace(text, s), u, p);
      NoRevival(text, s, u, p);
    }
  }

  lemma {:induction false} ScrubKeepsAbsence(order: seq<string>, text: string, u: string)
    requires Registrable(order) && u != "" && !Touches(u)
    requires u in order || !Contains(text, u)
    ensures !Contains(ScrubIn(order, text), u)
    decreases |order|
  {
    if order != [] {
      var next := Redact(text, order[0]);
      if u == order[0] || !Contains(text, u) {
        RedactKeepsAbsence(text, order[0], u);
      }
      ScrubKeepsAbsence(order[1..], next, u);
    }
  }

  lemma ReplaceHere(s: string, b: string)
    requires s != ""
    ensures Replace(s + b, s) == REDACTED + Replace(b, s)
  {
    assert (s + b)[..|s|] == s && (s + b)[|s|..] == b;
  }

  lemma ReplaceLater(c: char, t: string, s: string)
    requires s != "" && !OccursAt([c] + t, s, 0)
    ensures Replace([c] + t, s) == [c] + Replace(t, s)
  {
    var text := [c] + t;
    assert text[1..] == t;
    if |text| >= |s| {
      assert text[0..0 + |s|] == text[..|s|];
    }
  }

  lemma {:induction false} ReplaceFirst(a: string, s: string, b: string)
    requires s != "" && FreeBefore(a + s + b, s, |a|)
    ensures Replace(a + s + b, s) == a + REDACTED + Replace(b, s)
    decreases |a|
  {
    if a == "" {
      assert a + s + b == s + b;
      ReplaceHere(s, b);
    } else {
      var t := a + s + b;
      var rest := a[1..] + s + b;
      assert t == [a[0]] + rest && t[1..] == rest;
      forall q | 0 <= q < |a[1..]| ensures !OccursAt(rest, s, q) {
        LaterOccurrence(t, s, q + 1);
      }
      ReplaceFirst(a[1..], s, b);
      ReplaceLater(a[0], rest, s);
      assert a + REDACTED + Replace(b, s) == [a[0]] + (a[1..] + REDACTED + Replace(b, s));
    }
  }

  // A secret whose replacement completes u out of the marker and the text around it.
  function Foil(n: nat): string {
    ['x'] + seq(n, _ => 'y')
  }

  // The foil is not part of what surrounds it, and u is not there until the foil is replaced.
  lemma FoilStandsAlone(u: string, a: string, s: string, b: string)
    requires |a| < |u| && |a| + |b| < |u| && s == Foil(|u| + MIN_SECRET_LEN)
    requires u[|a|] != 'x' && u[|a|] != 'y'
    ensures !Contains(a + s + b, u)
    ensures FreeBefore(a + s + b, s, |a|)
  {
    var t := a + s + b;
    forall q | 0 <= q <= |t| - |u| ensures !OccursAt(t, u, q) {
      assert t[q..q + |u|][|a|] == t[q + |a|];
      if q < |s| {
        assert t[q + |a|] == s[q];
      }
    }
    forall q | 0 <= q < |a| ensures !OccursAt(t, s, q) {
      if q <= |t| - |s| {
        assert t[q..q + |s|][|a| - q] == t[|a|] == s[0];
      }
    }
  }

  lemma MarkerRevives(u: string, a: string, b: string)
    requires |u| >= MIN_SECRET_LEN && |a| < |u| && |a| + |b| < |u|
    requires u[|a|] != 'x' && u[|a|] != 'y'
    requires Contains(a + REDACTED + b, u)
    ensures !Robust(u)
  {
    var s := Foil(|u| + MIN_SECRET_LEN);
    var t := a + s + b;
    FoilStandsAlone(u, a, s, b);
    ReplaceFirst(a, s, b);
    assert t[|a|..|a| + |s|] == s;
    assert OccursAt(t, s, |a|);
    var order := [u, s];
    assert order[1..] == [s] && [s][1..] == [];
    assert ScrubIn([s], t) == ScrubIn([], Redact(t, s)) == a + REDACTED + b;
    assert ScrubIn(order, t) == a + REDACTED + b;
  }

  /** A secret that can be laid over the marker survives some registry, order and text. */
  lemma TouchingSurvives(u: string, d: int)
    requires |u| >= MIN_SECRET_LEN && Aligns(u, d)
    ensures !Robust(u)
  {
    var a := if d < 0 then u[..-d] else "";
    var b := if d + |u| > |REDACTED| then u[|REDACTED| - d..] else "";
    var p := if d < 0 then 0 else d;
    assert u[|a|] == REDACTED[d + |a|];
    var whole := a + REDACTED + b;
    assert forall j :: 0 <= j < |u| ==> whole[p + j] == u[j];
    assert whole[p..p + |u|] == u;
    assert OccursAt(whole, u, p);
    MarkerRevives(u, a, b);
  }

  /** The exact condition, checkable when a secret is registered: it cannot be laid over the marker. */
  lemma RobustIffUntouched(u: string)
    requires |u| >= MIN_SECRET_LEN
    ensures Robust(u) <==> !Touches(u)
  {
    if Touches(u) {
      var d :| Aligns(u, d);
      TouchingSurvives(u, d);
    } else {
      forall order: seq<string>, text: string | Registrable(order) && u in order
        ensures !Contains(ScrubIn(order, text), u)
      {
        ScrubKeepsAbsence(order, text, u);
      }
    }
  }

  lemma TouchingShape(u: string, d: int)
    requires |u| >= MIN_SECRET_LEN && Aligns(u, d)
    ensures '[' in u || ']' in u || u == "REDACTED"
  {
    if d <= 0 {
      assert u[-d] == REDACTED[0];
    } else if |u| > 9 - d {
      assert u[9 - d] == REDACTED[9];
    } else {
      assert u == REDACTED[1..9];
    }
  }

  /** Every registrable secret without brackets is robust, except the word inside the marker. */
  lemma BracketFreeIsRobust(u: string)
    requires |u| >= MIN_SECRET_LEN && '[' !in u && ']' !in u && u != "REDACTED"
    ensures Robust(u)
  {
    forall d | Aligns(u, d) ensures false {
      TouchingShape(u, d);
    }
    RobustIffUntouched(u);
  }

  /** The word inside the marker survives its own redaction; a secret with a bracket can be put together by another one. */
  lemma SurvivorExamples()
    ensures !Robust("REDACTED")
    ensures !Robust("]abcdefg")
    ensures ScrubIn(["REDACTED"], "REDACTED") == "[REDACTED]"
  {
    assert Aligns("REDACTED", 1);
    TouchingSurvives("REDACTED", 1);
    assert Aligns("]abcdefg", 9);
    TouchingSurvives("]abcdefg", 9);
    var u := "REDACTED";
    assert OccursAt(u, u, 0);
    assert u[..|u|] == u && u[|u|..] == "" && Replace("", u) == "";
    assert ["REDACTED"][1..] == [];
  }

  /** A text free of the registry is left alone, so scrubbing again, in any order, changes nothing. */
  lemma {:induction false} CleanTextUnchanged(order: seq<string>, text: string)
    requires Registrable(order) && forall u :: u in order ==> !Contains(text, u)
    ensures ScrubIn(order, text) == text
    decreases |order|
  {
    if order != [] {
      assert order[0] in order;
      CleanTextUnchanged(order[1..], text);
    }
  }

  lemma ScrubIsIdempotent(order: seq<string>, again: seq<string>, text: string)
    requires Registrable(order) && (forall u :: u in order <==> u in again)
    requires forall u :: u in order ==> Robust(u)
    ensures ScrubIn(again, ScrubIn(order, text)) == ScrubIn(order, text)
  {
    CleanTextUnchanged(again, ScrubIn(order, text));
  }

  // What a caller may hand to register_secret; bytes come with the result of decoding them.
  datatype Sensitive = Nothing | Str(text: string) | Bytes(decoded: Option<string>)

  // The parts of a log record that end up on a handler's output.  `rendered` is None when
  // formatting the message raises; `raw` is its template with the arguments, unformatted; `traceback` is present when exc_info is set, and its inner
  // option is None when formatting it raises.
  class LogRecord {
    const raw: string
    var rendered: Option<string>
    var traceback: Option<Option<string>>
    var excText: string
    var stackInfo: string

    constructor (raw: string, rendered: Option<string>, traceback: Option<Option<string>>, excText: string, stackInfo: string)
      ensures this.raw == raw && this.rendered == rendered && this.traceback == traceback
      ensures this.excText == excText && this.stackInfo == stackInfo
    {
      this.raw, this.rendered, this.traceback, this.excText, this.stackInfo := raw, rendered, traceback, excText, stackInfo;
    }

    // What a handler downstream prints.  Its formatter formats the traceback itself when no text
    // is cached; when the message cannot be formatted, the handler reports the raw message instead.
    function Printed(): seq<string>
      reads this
    {
      if rendered.None? then [raw, "", ""]
      else [rendered.value,
       if excText == "" && traceback.Some? && traceback.value.Some? then traceback.value.value else excText,
       stackInfo]
    }
  }

  // The scrubbed text, for some order in which the registry is listed.
  ghost predicate Scrubbed(secrets: set<string>, text: string, clean: string) {
    exists order: seq<string> :: Registrable(order) && (forall s :: s in order <==> s in secrets) && clean == ScrubIn(order, text)
  }

  lemma ScrubbedHoldsNone(secrets: set<string>, text: string, clean: string)
    requires Scrubbed(secrets, text, clean)
    ensures forall u :: u in secrets && Robust(u) ==> !Contains(clean, u)
  {
    var order: seq<string> :| Registrable(order) && (forall s :: s in order <==> s in secrets) && clean == ScrubIn(order, text);
  }

  class Registry {
    var secrets: set<string>

    ghost predicate Valid()
      reads this
    {
      forall s :: s in secrets ==> |s| >= MIN_SECRET_LEN
    }

    constructor ()
      ensures Valid() && secrets == {}
    {
      secrets := {};
    }

    method RegisterSecret(value: Sensitive)
      requires Valid()
      modifies this
      ensures Valid()
      ensures secrets == old(secrets) + RegisteredBy(value)
      ensures forall text :: text in secrets <==>
                text in old(secrets) || (|text| >= 8 && (value == Str(text) || value == Bytes(Some(text))))
    {
      var decoded := match value
        case Nothing => None
        case Str(text) => Some(text)
        case Bytes(d) => d;
      if decoded.Some? && |decoded.value| >= MIN_SECRET_LEN {
        secrets := secrets + {decoded.value};
      }
    }

    method Scrub(text: string) returns (clean: string)
      requires Valid()
      ensures Scrubbed(secrets, text, clean)
      ensures forall u :: u in secrets && Robust(u) ==> !Contains(clean, u)
    {
      var pending := secrets;
      ghost var order: seq<string> := [];
      clean := text;
      while pending != {}
        invariant pending <= secrets && Registrable(order)
        invariant forall s :: s in order <==> s in secrets - pending
        invariant clean == ScrubIn(order, text)
        decreases |pending|
      {
        var secret :| secret in pending;
        ScrubSnoc(order, secret, text);
        if Contains(clean, secret) {
          clean := Replace(clean, secret);
        }
        order := order + [secret];
        pending := pending - {secret};
      }
    }

    /** The filter attached to handlers: it rewrites the record, unless its message cannot be formatted; then the raw message is still what gets printed. */
    method Filter(record: LogRecord)
      requires Valid()
      modifies record
      ensures old(record.rendered).None? ==> record.Printed() == old(record.Printed()) == [record.raw, "", ""]
      ensures old(record.rendered).Some? ==> forall k :: 0 <= k < 3 ==> Scrubbed(secrets, old(record.Printed())[k], record.Printed()[k])
      ensures old(record.rendered).Some? ==>
                forall u, k :: u in secrets && Robust(u) && 0 <= k < 3 ==> !Contains(record.Printed()[k], u)
    {
      if record.rendered.None? {
        return;
      }
      ghost var before := record.Printed();
      var message := Scrub(record.rendered.value);
      record.rendered := Some(message);
      FilterTraceback(record);
      var stack := ScrubPart(record.stackInfo);
      record.stackInfo := stack;
      forall k | 0 <= k < 3 ensures Scrubbed(secrets, before[k], record.Printed()[k]) {
      }
      ScrubbedHoldsNone(secrets, before[0], record.Printed()[0]);
      ScrubbedHoldsNone(secrets, before[1], record.Printed()[1]);
      ScrubbedHoldsNone(secrets, before[2], record.Printed()[2]);
    }

    // The traceback is cached, scrubbed, as the formatter would format it; one that cannot be formatted is dropped.
    method FilterTraceback(record: LogRecord)
      requires Valid() && record.rendered.Some?
      modifies record`excText, record`traceback
      ensures Scrubbed(secrets, old(record.Printed())[1], record.Printed()[1])
    {
      if record.traceback.Some? && record.excText == "" {
        if record.traceback.value.Some? {
          var cached := ScrubPart(record.traceback.value.value);
          record.excText := cached;
        } else {
          record.traceback := None;
          EmptyIsScrubbed(secrets);
        }
      } else {
        var cached := ScrubPart(record.excText);
        record.excText := cached;
      }
    }

    // Scrubbing an optional part of the record; an absent part is the empty text and stays so.
    method ScrubPart(text: string) returns (clean: string)
      requires Valid()
      ensures clean == "" <==> text == ""
      ensures Scrubbed(secrets, text, clean)
    {
      if text == "" {
        EmptyIsScrubbed(secrets);
        return "";
      }
      clean := Scrub(text);
      ScrubbedEmpty(text, clean, secrets);
    }
  }

  function RegisteredBy(value: Sensitive): set<string> {
    match value
    case Nothing => {}
    case Str(text) => if |text| >= MIN_SECRET_LEN then {text} else {}
    case Bytes(decoded) => if decoded.Some? && |decoded.value| >= MIN_SECRET_LEN then {decoded.value} else {}
  }

  lemma {:induction false} ScrubSnoc(order: seq<string>, last: string, text: string)
    requires Registrable(order) && |last| >= MIN_SECRET_LEN
    ensures Registrable(order + [last])
    ensures ScrubIn(order + [last], text) == Redact(ScrubIn(order, text), last)
    decreases |order|
  {
    if order == [] {
      assert ([] + [last])[1..] == [];
      assert ScrubIn([], Redact(text, last)) == Redact(text, last);
    } else {
      assert (order + [last])[1..] == order[1..] + [last];
      ScrubSnoc(order[1..], last, Redact(text, order[0]));
    }
  }

  lemma {:induction false} ReplaceEmpty(text: string, s: string)
    requires s != "" && Replace(text, s) == ""
    ensures text == ""
  {
  }

  lemma {:induction false} ScrubEmpty(order: seq<string>, text: string)
    requires Registrable(order) && ScrubIn(order, text) == ""
    ensures text == ""
    decreases |order|
  {
    if order != [] {
      ScrubEmpty(order[1..], Redact(text, order[0]));
      if Contains(text, order[0]) {
        ReplaceEmpty(text, order[0]);
      }
    }
  }

  lemma {:induction false} NothingToScrub(order: seq<string>)
    requires Registrable(order)
    ensures ScrubIn(order, "") == ""
    decreases |order|
  {
    if order != [] {
      NothingToScrub(order[1..]);
    }
  }

  lemma {:induction false} CanBeListed(secrets: set<string>) returns (order: seq<string>)
    requires forall s :: s in secrets ==> |s| >= MIN_SECRET_LEN
    ensures Registrable(order) && forall s :: s in order <==> s in secrets
    decreases |secrets|
  {
    order := [];
    if secrets != {} {
      var s :| s in secrets;
      var rest := CanBeListed(secrets - {s});
      order := [s] + rest;
    }
  }

  lemma EmptyIsScrubbed(secrets: set<string>)
    requires forall s :: s in secrets ==> |s| >= MIN_SECRET_LEN
    ensures Scrubbed(secrets, "", "")
  {
    var order := CanBeListed(secrets);
    NothingToScrub(order);
  }

  // A scrubbed text is empty only if the text was, so a formatter never goes back to the raw traceback.
  lemma ScrubbedEmpty(text: string, clean: string, secrets: set<string>)
    requires Scrubbed(secrets, text, clean)
    ensures clean == "" ==> text == ""
  {
    var order: seq<string> :| Registrable(order) && (forall s :: s in order <==> s in secrets) && clean == ScrubIn(order, text);
    if clean == "" {
      ScrubEmpty(order, text);
    }
  }
}
