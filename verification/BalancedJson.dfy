/**
  Finding JSON objects in prose: from each opening brace the scanner follows
  brace depth outside strings until the object closes.
 */
module BalancedJson {
  import opened Basics

  /** Brace depth, and where the scanner is within a string. */
  datatype Scan = Scan(depth: int, inString: bool, escaped: bool)

  const START := Scan(0, false, false)

  function Advance(s: Scan, c: char): Scan {
    if s.inString then
      if s.escaped then s.(escaped := false)
      else if c == '\\' then s.(escaped := true)
      else if c == '"' then s.(inString := false)
      else s
    else if c == '"' then s.(inString := true)
    else if c == '{' then s.(depth := s.depth + 1)
    else if c == '}' then s.(depth := s.depth - 1)
    else s
  }

  /** readBalancedJsonObject on what is left of the text: how many characters close the object. */
  function Consume(rest: string, s: Scan): (n: Option<nat>)
    ensures n.Some? ==> 0 < n.value <= |rest|
  {
    if rest == "" then None
    else
      var next := Advance(s, rest[0]);
      if !s.inString && rest[0] == '}' && next.depth == 0 then Some(1)
      else if !s.inString && rest[0] == '}' && next.depth < 0 then None
      else Later(1, Consume(rest[1..], next))
  }

  function Later(n: nat, found: Option<nat>): Option<nat> {
    if found.Some? then Some(n + found.value) else None
  }

  /** balancedJsonCandidates on what is left of the text. */
  function Candidates(rest: string): seq<string>
    decreases |rest|
  {
    if rest == "" then []
    else if rest[0] != '{' then Candidates(rest[1..])
    else
      var n := Consume(rest, START);
      if n.None? then Candidates(rest[1..]) else [rest[..n.value]] + Candidates(rest[n.value..])
  }

  /** After n characters the answer depends only on the state and on what is left. */
  ghost predicate Reading(found: Option<nat>, n: nat, rest: string, s: Scan) {
    found == Later(n, Consume(rest, s))
  }

  /** One character decides the answer or leaves it open. */
  lemma {:induction false} ReadingStep(found: Option<nat>, n: nat, rest: string, s: Scan)
    requires rest != "" && Reading(found, n, rest, s)
    ensures var c, next := rest[0], Advance(s, rest[0]);
            if !s.inString && c == '}' && next.depth <= 0 then found == if next.depth == 0 then Some(n + 1) else None
            else Reading(found, n + 1, rest[1..], next)
  {
  }

  ghost predicate ReadTo(found: Option<nat>, text: string, start: nat, index: nat, s: Scan)
    requires start <= index <= |text|
  {
    Reading(found, index - start, text[index..], s)
  }

  lemma {:induction false} ReadingAt(found: Option<nat>, text: string, start: nat, index: nat, s: Scan)
    requires start <= index < |text| && ReadTo(found, text, start, index, s)
    ensures var c, next := text[index], Advance(s, text[index]);
            if !s.inString && c == '}' && next.depth <= 0 then found == if next.depth == 0 then Some(index + 1 - start) else None
            else ReadTo(found, text, start, index + 1, next)
  {
    assert text[index..][0] == text[index] && text[index..][1..] == text[index + 1..];
    ReadingStep(found, index - start, text[index..], s);
  }

  lemma {:induction false} ReadingEnd(found: Option<nat>, text: string, start: nat, s: Scan)
    requires start <= |text| && ReadTo(found, text, start, |text|, s)
    ensures found == None
  {
  }

  method ReadBalancedJsonObject(text: string, start: nat) returns (r: Option<string>)
    requires start <= |text|
    ensures var n := Consume(text[start..], START);
            r == if n.Some? then Some(text[start..start + n.value]) else None
  {
    ghost var found := Consume(text[start..], START);
    var depth, inString, escaped := 0, false, false;
    ghost var s := START;
    for index := start to |text|
      invariant s == Scan(depth, inString, escaped) && ReadTo(found, text, start, index, s)
    {
      var c := text[index];
      ReadingAt(found, text, start, index, s);
      s := Advance(s, c);
      if inString {
        if escaped {
          escaped := false;
        } else if c == '\\' {
          escaped := true;
        } else if c == '"' {
          inString := false;
        }
        continue;
      }
      if c == '"' {
        inString := true;
        continue;
      }
      if c == '{' {
        depth := depth + 1;
      } else if c == '}' {
        depth := depth - 1;
        if depth == 0 {
          return Some(text[start..index + 1]);
        }
        if depth < 0 {
          return None;
        }
      }
    }
    ReadingEnd(found, text, start, s);
    return None;
  }

  lemma {:induction false} SliceAt(text: string, index: nat, n: nat)
    requires index + n <= |text|
    ensures text[index..][..n] == text[index..index + n] && text[index..][n..] == text[index + n..]
  {
  }

  lemma {:induction false} CandidatesStep(rest: string)
    requires rest != ""
    ensures var n := Consume(rest, START);
            Candidates(rest)
            == if rest[0] != '{' || n.None? then Candidates(rest[1..]) else [rest[..n.value]] + Candidates(rest[n.value..])
  {
  }

  lemma {:induction false} CandidatesAt(text: string, index: nat)
    requires index < |text|
    ensures var n := Consume(text[index..], START);
            Candidates(text[index..])
            == if text[index] != '{' || n.None? then Candidates(text[index + 1..])
               else [text[index..index + n.value]] + Candidates(text[index + n.value..])
  {
    CandidatesStep(text[index..]);
    SliceAt(text, index, 1);
    var n := Consume(text[index..], START);
    if n.Some? { SliceAt(text, index, n.value); }
  }

  method BalancedJsonCandidates(text: string) returns (candidates: seq<string>)
    ensures candidates == Candidates(text)
  {
    candidates := [];
    var index := 0;
    while index < |text|
      invariant 0 <= index <= |text|
      invariant candidates + Candidates(text[index..]) == Candidates(text)
    {
      CandidatesAt(text, index);
      if text[index] != '{' {
        index := index + 1;
        continue;
      }
      var candidate := ReadBalancedJsonObject(text, index);
      if candidate.Some? {
        candidates := candidates + [candidate.value];
        index := index + |candidate.value|;
      } else {
        index := index + 1;
      }
    }
  }

  // ----- What a candidate is -----

  /** The scanner's state after a text. */
  function After(text: string): Scan {
    if text == "" then START else Advance(After(text[..|text| - 1]), text[|text| - 1])
  }

  /** Opens with a brace, closes it at its end, and not before. */
  ghost predicate MinimalObject(x: string) {
    && x != "" && x[0] == '{' && x[|x| - 1] == '}'
    && After(x) == START
    && forall k | 0 < k < |x| :: After(x[..k]).depth > 0
  }

  /** No prefix of the text closes its first brace. */
  ghost predicate NeverCloses(x: string) {
    forall k | 0 < k <= |x| :: After(x[..k]).depth > 0
  }

  lemma {:induction false} AfterMore(x: string, c: char)
    ensures After(x + [c]) == Advance(After(x), c)
  {
    assert (x + [c])[..|x|] == x;
  }

  /** Outside strings there is no escape, and braces move the depth by one. */
  lemma {:induction false} AfterTidy(x: string)
    ensures After(x).escaped ==> After(x).inString
  {
    if x != "" { AfterTidy(x[..|x| - 1]); }
  }

  lemma {:induction false} OpenMore(done: string, c: char)
    requires NeverCloses(done) && After(done + [c]).depth > 0
    ensures NeverCloses(done + [c])
  {
    var more := done + [c];
    forall k | 0 < k <= |more| ensures After(more[..k]).depth > 0 {
      if k <= |done| { assert more[..k] == done[..k]; } else { assert more[..k] == more; }
    }
  }

  lemma {:induction false} OpenNow(done: string)
    requires done != "" && NeverCloses(done)
    ensures After(done).depth > 0
  {
    assert done[..|done|] == done;
  }

  /** From an open text, the first n characters of the rest close it, or nothing ever does. */
  lemma {:induction false} ConsumeMeaning(done: string, rest: string)
    requires done != "" && NeverCloses(done)
    ensures var n := Consume(rest, After(done));
            && (n.Some? ==>
                  && After(done + rest[..n.value]) == START && rest[n.value - 1] == '}'
                  && NeverCloses(done + rest[..n.value - 1]))
            && (n.None? ==> NeverCloses(done + rest))
    decreases |rest|
  {
    if rest == "" {
      assert done + rest == done;
    } else {
      var c, tail := rest[0], rest[1..];
      var more := done + [c];
      AfterMore(done, c);
      AfterTidy(done);
      OpenNow(done);
      assert more + tail == done + rest;
      if !After(done).inString && c == '}' && Advance(After(done), c).depth == 0 {
        assert rest[..1] == [c] && done + rest[..0] == done;
      } else {
        OpenMore(done, c);
        ConsumeMeaning(more, tail);
        var n := Consume(tail, After(more));
        if n.Some? {
          OneFurther(done, c, tail, n.value);
          OneFurther(done, c, tail, n.value - 1);
          assert rest == [c] + tail;
        }
      }
    }
  }

  lemma {:induction false} OneFurther(done: string, c: char, tail: string, n: nat)
    requires n <= |tail|
    ensures (done + [c]) + tail[..n] == done + ([c] + tail)[..n + 1]
  {
  }

  lemma {:induction false} ClosedNow(open: string, c: char)
    requires open != "" && open[0] == '{' && NeverCloses(open) && c == '}' && After(open + [c]) == START
    ensures MinimalObject(open + [c])
  {
    var x := open + [c];
    forall k | 0 < k < |x| ensures After(x[..k]).depth > 0 {
      assert x[..k] == open[..k];
    }
  }

  lemma {:induction false} OneBrace()
    ensures After("{") == Scan(1, false, false) && NeverCloses("{")
  {
    assert "{"[..0] == "" && "{"[..1] == "{";
  }

  lemma {:induction false} ConsumeBrace(tail: string)
    ensures Consume("{" + tail, START) == Later(1, Consume(tail, Scan(1, false, false)))
  {
    var rest := "{" + tail;
    assert rest[0] == '{' && rest[1..] == tail;
  }

  lemma {:induction false} OpeningBrace(tail: string)
    ensures var rest := "{" + tail;
            var n := Consume(rest, START);
            (n.Some? ==> MinimalObject(rest[..n.value])) && (n.None? ==> NeverCloses(rest))
  {
    var rest, n := "{" + tail, Consume(tail, Scan(1, false, false));
    OneBrace();
    ConsumeBrace(tail);
    ConsumeMeaning("{", tail);
    if n.Some? {
      var open := "{" + tail[..n.value - 1];
      assert open + ['}'] == "{" + tail[..n.value] == rest[..n.value + 1];
      ClosedNow(open, '}');
    }
  }

  // ----- Where the candidates are -----

  /** Start and end of each candidate. */
  function Spans(text: string, from: nat): seq<(nat, nat)>
    requires from <= |text|
    decreases |text| - from
  {
    if from == |text| then []
    else if text[from] != '{' then Spans(text, from + 1)
    else
      var n := Consume(text[from..], START);
      if n.None? then Spans(text, from + 1) else [(from, from + n.value)] + Spans(text, from + n.value)
  }

  ghost predicate Ordered(spans: seq<(nat, nat)>, from: nat, length: nat) {
    && (forall i | 0 <= i < |spans| :: from <= spans[i].0 < spans[i].1 <= length)
    && (forall i, j | 0 <= i < j < |spans| :: spans[i].1 <= spans[j].0)
  }

  predicate Covered(spans: seq<(nat, nat)>, at: nat) {
    exists i | 0 <= i < |spans| :: spans[i].0 <= at < spans[i].1
  }

  /** The two ways in which the search goes on. */
  lemma {:induction false} SpansStep(text: string, from: nat)
    requires from < |text|
    ensures var rest := text[from..];
            var n := if text[from] == '{' then Consume(rest, START) else None;
            && (n.None? ==> Spans(text, from) == Spans(text, from + 1) && Candidates(rest) == Candidates(text[from + 1..]))
            && (n.Some? ==>
                  && from + n.value <= |text|
                  && Spans(text, from) == [(from, from + n.value)] + Spans(text, from + n.value)
                  && Candidates(rest) == [text[from..from + n.value]] + Candidates(text[from + n.value..])
                  && MinimalObject(text[from..from + n.value]))
            && (text[from] == '{' && n.None? ==> NeverCloses(rest))
  {
    var rest := text[from..];
    assert rest[1..] == text[from + 1..] && rest[0] == text[from];
    if text[from] == '{' {
      assert rest == "{" + rest[1..];
      OpeningBrace(rest[1..]);
      var n := Consume(rest, START);
      if n.Some? {
        assert rest[n.value..] == text[from + n.value..] && rest[..n.value] == text[from..from + n.value];
      }
    }
  }

  lemma {:induction false} SpansOrdered(text: string, from: nat)
    requires from <= |text|
    ensures Ordered(Spans(text, from), from, |text|)
    decreases |text| - from
  {
    if from < |text| {
      SpansStep(text, from);
      var n := if text[from] == '{' then Consume(text[from..], START) else None;
      SpansOrdered(text, if n.Some? then from + n.value else from + 1);
    }
  }

  /** The candidates are the minimal objects that the spans cut out. */
  ghost predicate Cuts(text: string, spans: seq<(nat, nat)>, candidates: seq<string>) {
    && |candidates| == |spans|
    && forall i | 0 <= i < |spans| ::
         && spans[i].0 <= spans[i].1 <= |text|
         && candidates[i] == text[spans[i].0..spans[i].1] && MinimalObject(candidates[i])
  }

  lemma {:induction false} CutsOneMore(text: string, a: nat, b: nat, spans: seq<(nat, nat)>, candidates: seq<string>)
    requires a <= b <= |text| && MinimalObject(text[a..b]) && Cuts(text, spans, candidates)
    ensures Cuts(text, [(a, b)] + spans, [text[a..b]] + candidates)
  {
  }

  lemma {:induction false} SpansCut(text: string, from: nat)
    requires from <= |text|
    ensures Cuts(text, Spans(text, from), Candidates(text[from..]))
    decreases |text| - from
  {
    if from < |text| {
      SpansStep(text, from);
      var n := if text[from] == '{' then Consume(text[from..], START) else None;
      if n.None? {
        SpansCut(text, from + 1);
      } else {
        SpansCut(text, from + n.value);
        CutsOneMore(text, from, from + n.value, Spans(text, from + n.value), Candidates(text[from + n.value..]));
      }
    }
  }

  lemma {:induction false} CoveredFirst(x: (nat, nat), later: seq<(nat, nat)>, at: nat)
    ensures Covered([x] + later, at) <==> x.0 <= at < x.1 || Covered(later, at)
  {
    var spans := [x] + later;
    assert spans[0] == x && forall i | 0 <= i < |later| :: spans[i + 1] == later[i];
    if Covered(spans, at) && !(x.0 <= at < x.1) {
      var i :| 0 <= i < |spans| && spans[i].0 <= at < spans[i].1;
      assert later[i - 1] == spans[i];
    }
  }

  lemma {:induction false} SpansMissNothing(text: string, from: nat, at: nat)
    requires from <= at < |text| && text[at] == '{' && !Covered(Spans(text, from), at)
    ensures NeverCloses(text[at..])
    decreases |text| - from
  {
    SpansStep(text, from);
    var n := if text[from] == '{' then Consume(text[from..], START) else None;
    if n.None? {
      if from < at { SpansMissNothing(text, from + 1, at); }
    } else {
      CoveredFirst((from, from + n.value), Spans(text, from + n.value), at);
      SpansMissNothing(text, from + n.value, at);
    }
  }

  /**
    In any text the candidates are disjoint, in order, and each is a minimal
    balanced object; an opening brace outside all of them never closes.
   */
  lemma {:induction false} CandidatesAreMinimalObjects(text: string) returns (spans: seq<(nat, nat)>)
    ensures Ordered(spans, 0, |text|) && |Candidates(text)| == |spans|
    ensures forall i | 0 <= i < |spans| ::
              Candidates(text)[i] == text[spans[i].0..spans[i].1] && MinimalObject(Candidates(text)[i])
    ensures forall at | 0 <= at < |text| && text[at] == '{' && !Covered(spans, at) :: NeverCloses(text[at..])
  {
    spans := Spans(text, 0);
    assert text[0..] == text;
    SpansOrdered(text, 0);
    SpansCut(text, 0);
    forall at | 0 <= at < |text| && text[at] == '{' && !Covered(spans, at) ensures NeverCloses(text[at..]) {
      SpansMissNothing(text, 0, at);
    }
  }
}
