/** Finding JSON objects inside a longer text by balancing braces outside of strings. */
module JsonScanner {
  import opened Common

  // ---------------------------------------------------------------- the scanner, one character at a time

  /** The scanner's variables. */
  datatype Mode = Mode(depth: int, inString: bool, escaped: bool)

  predicate Closes(mode: Mode, c: char) { !mode.inString && c == '}' && mode.depth == 1 }

  function Next(mode: Mode, c: char): Mode {
    if mode.inString then
      if mode.escaped then mode.(escaped := false)
      else if c == '\\' then mode.(escaped := true)
      else if c == '"' then mode.(inString := false)
      else mode
    else if c == '"' then mode.(inString := true)
    else if c == '{' then mode.(depth := mode.depth + 1)
    else if c == '}' then mode.(depth := mode.depth - 1)
    else mode
  }

  /** How many characters of `s` are taken up to and including the closing brace, if there is one. */
  function Scan(s: string, mode: Mode): (r: Option<nat>)
    ensures r.Some? ==> 1 <= r.value <= |s| && s[r.value - 1] == '}'
  {
    if s == [] then None
    else if Closes(mode, s[0]) then Some(1)
    else
      match Scan(s[1..], Next(mode, s[0]))
      case None => None
      case Some(n) => Some(n + 1)
  }

  const START := Mode(0, false, false)

  /** The balanced text that begins with the brace at `start`. */
  function ExtractedAt(text: string, start: nat): (r: Option<string>)
    requires start < |text|
    ensures r.Some? && text[start] == '{' ==> r.value != [] && r.value[0] == '{' && r.value[|r.value| - 1] == '}'
  {
    match Scan(text[start..], START)
    case None => None
    case Some(n) => Some(text[start..start + n])
  }

  /** What the braces before position `n` yield, in order. */
  function Extractions(text: string, n: nat): (r: seq<string>)
    requires n <= |text|
  {
    if n == 0 then []
    else
      var front := Extractions(text, n - 1);
      if text[n - 1] == '{' && ExtractedAt(text, n - 1).Some? then front + [ExtractedAt(text, n - 1).value] else front
  }

  /** Every balanced text once, in the order of their first braces. */
  function Candidates(text: string): seq<string> { Dedup(Extractions(text, |text|)) }

  // ---------------------------------------------------------------- trimming

  predicate IsSpace(c: char) {
    || '\t' <= c <= '\r' || c == ' ' || c == '\U{00A0}' || c == '\U{1680}' || '\U{2000}' <= c <= '\U{200A}'
    || c == '\U{2028}' || c == '\U{2029}' || c == '\U{202F}' || c == '\U{205F}' || c == '\U{3000}' || c == '\U{FEFF}'
  }

  function Trim(s: string): string {
    if s == [] then s
    else if IsSpace(s[0]) then Trim(s[1..])
    else if IsSpace(s[|s| - 1]) then Trim(s[..|s| - 1])
    else s
  }

  // ---------------------------------------------------------------- the loops

  /** The next brace from a position on; in between nothing is found. */
  method NextBrace(text: string, from: nat) returns (k: nat)
    requires from <= |text|
    ensures from <= k <= |text| && (k < |text| ==> text[k] == '{')
    ensures Extractions(text, k) == Extractions(text, from)
  {
    k := from;
    while k < |text| && text[k] != '{'
      invariant from <= k <= |text|
      invariant Extractions(text, k) == Extractions(text, from)
    {
      k := k + 1;
    }
  }

  /** The inner loop: the end of the balanced text, or None when the text ends first. */
  method FindClose(text: string, start: nat) returns (end: Option<nat>)
    requires start < |text|
    ensures end.Some? ==> start <= end.value <= |text|
    ensures ExtractedAt(text, start) == if end.Some? then Some(text[start..end.value]) else None
  {
    var depth, inString, escaped := 0, false, false;
    for i := start to |text|
      invariant Scan(text[start..], START).Some? <==> Scan(text[i..], Mode(depth, inString, escaped)).Some?
      invariant Scan(text[start..], START).Some? ==>
        start + Scan(text[start..], START).value == i + Scan(text[i..], Mode(depth, inString, escaped)).value
    {
      var c := text[i];
      assert text[i..][1..] == text[i + 1..];
      if inString {
        if escaped {
          escaped := false;
          continue;
        }
        if c == '\\' {
          escaped := true;
          continue;
        }
        if c == '"' { inString := false; }
        continue;
      }
      if c == '"' {
        inString := true;
        continue;
      }
      if c == '{' {
        depth := depth + 1;
        continue;
      }
      if c != '}' { continue; }
      depth := depth - 1;
      if depth != 0 { continue; }
      return Some(i + 1);
    }
    return None;
  }

  /** The text that the brace at `start` opens becomes a candidate unless it has been seen. */
  method Consider(text: string, start: nat, candidates0: seq<string>, seen0: set<string>)
    returns (candidates: seq<string>, seen: set<string>)
    requires start < |text| && text[start] == '{'
    requires candidates0 == Dedup(Extractions(text, start)) && seen0 == ToSet(candidates0)
    ensures candidates == Dedup(Extractions(text, start + 1)) && seen == ToSet(candidates)
  {
    candidates, seen := candidates0, seen0;
    var end := FindClose(text, start);
    OneBrace(text, start);
    if end.Some? {
      var candidate := Trim(text[start..end.value]);
      if candidate != [] && candidate !in seen {
        SetSnoc(candidates, candidate);
        seen := seen + {candidate};
        candidates := candidates + [candidate];
      }
    }
  }

  method ExtractBalancedJsonObjectCandidates(text: string) returns (candidates: seq<string>)
    ensures candidates == Candidates(text)
  {
    candidates := [];
    var seen: set<string> := {};
    var start := NextBrace(text, 0);
    while start < |text|
      invariant start <= |text| && (start < |text| ==> text[start] == '{')
      invariant candidates == Dedup(Extractions(text, start))
      invariant seen == ToSet(candidates)
    {
      candidates, seen := Consider(text, start, candidates, seen);
      start := NextBrace(text, start + 1);
    }
  }

  lemma SetSnoc(s: seq<string>, x: string)
    ensures ToSet(s + [x]) == ToSet(s) + {x}
  {
  }

  /** What one brace adds to the candidates. */
  lemma OneBrace(text: string, start: nat)
    requires start < |text| && text[start] == '{'
    ensures var front := Dedup(Extractions(text, start));
            match ExtractedAt(text, start)
            case None => Dedup(Extractions(text, start + 1)) == front
            case Some(found) =>
              && Trim(found) == found && found != []
              && Dedup(Extractions(text, start + 1)) == if found in front then front else front + [found]
  {
    match ExtractedAt(text, start)
    case None =>
    case Some(found) =>
      assert (Extractions(text, start) + [found])[..|Extractions(text, start)|] == Extractions(text, start);
  }

  lemma {:induction false} NoBraceNothing(text: string, a: nat, b: nat)
    requires a <= b <= |text| && forall i :: a <= i < b ==> text[i] != '{'
    ensures Extractions(text, b) == Extractions(text, a)
    decreases b
  {
    if a >= b {
    } else {
      NoBraceNothing(text, a, b - 1);
    }
  }

  // ---------------------------------------------------------------- the texts of JSON values

  /**
   * One character of a string: any but a quote or a backslash, or a backslash and what follows it.
   * A Unicode escape is an escaped u and four plain digits.
   */
  datatype StringChar = Plain(c: char) | Escape(c: char)

  /** The blank texts stand for the white space allowed around the structural characters. */
  datatype Value =
    | Scalar(text: string)
    | Text(chars: seq<StringChar>)
    | Array(blank: string, items: Items)
    | Object(blank: string, members: Members)

  datatype Items = NoItem | Item(before: string, value: Value, after: string, rest: Items)

  datatype Members =
    | NoMember
    | Member(before: string, name: seq<StringChar>, colonBefore: string, colonAfter: string, value: Value, after: string, rest: Members)

  /** Nothing in it that matters to the scanner: numbers, literal names, white space, structural characters. */
  predicate Neutral(s: string) { '"' !in s && '{' !in s && '}' !in s }

  predicate GoodChars(chars: seq<StringChar>) {
    forall k :: k in chars ==> k.Plain? ==> k.c != '"' && k.c != '\\'
  }

  predicate GoodValue(v: Value) {
    match v
    case Scalar(text) => Neutral(text)
    case Text(chars) => GoodChars(chars)
    case Array(blank, items) => Neutral(blank) && GoodItems(items)
    case Object(blank, members) => Neutral(blank) && GoodMembers(members)
  }

  predicate GoodItems(items: Items) {
    items.Item? ==> Neutral(items.before) && GoodValue(items.value) && Neutral(items.after) && GoodItems(items.rest)
  }

  predicate GoodMembers(m: Members) {
    m.Member? ==>
      && Neutral(m.before) && GoodChars(m.name) && Neutral(m.colonBefore) && Neutral(m.colonAfter)
      && GoodValue(m.value) && Neutral(m.after) && GoodMembers(m.rest)
  }

  function WriteChars(chars: seq<StringChar>): string {
    if chars == [] then []
    else (if chars[0].Plain? then [chars[0].c] else ['\\', chars[0].c]) + WriteChars(chars[1..])
  }

  function WriteText(chars: seq<StringChar>): string { "\"" + (WriteChars(chars) + "\"") }

  function Write(v: Value): string {
    match v
    case Scalar(text) => text
    case Text(chars) => WriteText(chars)
    case Array(blank, items) => "[" + (blank + (WriteItems(items) + "]"))
    case Object(blank, members) => "{" + (Inside(blank, members) + "}")
  }

  function WriteItems(items: Items): string {
    match items
    case NoItem => ""
    case Item(before, value, after, rest) =>
      before + (Write(value) + (after + ((if rest.NoItem? then "" else ",") + WriteItems(rest))))
  }

  function Inside(blank: string, members: Members): string
    decreases members, 1
  {
    blank + WriteMembers(members)
  }

  function WriteMembers(members: Members): string
    decreases members, 0
  {
    match members
    case NoMember => ""
    case Member(before, name, colonBefore, colonAfter, value, after, rest) =>
      before + (WriteText(name) + ((colonBefore + ":" + colonAfter) + (Write(value) + (after + ((if rest.NoMember? then "" else ",") + WriteMembers(rest))))))
  }

  // ---------------------------------------------------------------- texts that the scanner passes through

  /** The scanner takes all of `s` without closing, and goes from one mode to the other. */
  ghost predicate Passes(s: string, from: Mode, to: Mode) {
    if s == [] then from == to
    else !Closes(from, s[0]) && Passes(s[1..], Next(from, s[0]), to)
  }

  lemma {:induction false} PassesBoth(a: string, b: string, from: Mode, mid: Mode, to: Mode)
    requires Passes(a, from, mid) && Passes(b, mid, to)
    ensures Passes(a + b, from, to)
  {
    if a == [] {
      assert a + b == b;
    } else {
      assert (a + b)[1..] == a[1..] + b;
      PassesBoth(a[1..], b, Next(from, a[0]), mid, to);
    }
  }

  lemma {:induction false} ScanAfter(a: string, b: string, from: Mode, mid: Mode)
    requires Passes(a, from, mid)
    ensures Scan(a + b, from) == match Scan(b, mid) case None => None case Some(n) => Some(|a| + n)
  {
    if a == [] {
      assert a + b == b;
    } else {
      assert (a + b)[1..] == a[1..] + b;
      ScanAfter(a[1..], b, Next(from, a[0]), mid);
    }
  }

  lemma {:induction false} NeutralPasses(s: string, d: int)
    requires Neutral(s)
    ensures Passes(s, Mode(d, false, false), Mode(d, false, false))
  {
    if s == [] {
    } else {
      assert s[0] in s;
      NeutralPasses(s[1..], d);
    }
  }

  /** Quotes, backslashes and braces inside a string change nothing. */
  lemma {:induction false} CharsPass(chars: seq<StringChar>, d: int)
    requires GoodChars(chars)
    ensures Passes(WriteChars(chars), Mode(d, true, false), Mode(d, true, false))
  {
    if chars == [] {
    } else {
      var m := Mode(d, true, false);
      assert chars[0] in chars;
      CharsPass(chars[1..], d);
      var first := if chars[0].Plain? then [chars[0].c] else ['\\', chars[0].c];
      assert Passes(first, m, m) by {
        if chars[0].Escape? { assert first[1..] == [chars[0].c]; }
      }
      PassesBoth(first, WriteChars(chars[1..]), m, m, m);
    }
  }

  lemma TextPasses(chars: seq<StringChar>, d: int)
    requires GoodChars(chars)
    ensures Passes(WriteText(chars), Mode(d, false, false), Mode(d, false, false))
  {
    var outside, inside := Mode(d, false, false), Mode(d, true, false);
    CharsPass(chars, d);
    assert Passes("\"", inside, outside);
    PassesBoth(WriteChars(chars), "\"", inside, inside, outside);
    assert Passes("\"", outside, inside);
    PassesBoth("\"", WriteChars(chars) + "\"", outside, inside, outside);
  }

  /** Two texts that leave the mode alone leave it alone together. */
  lemma Along(a: string, b: string, m: Mode)
    requires Passes(a, m, m) && Passes(b, m, m)
    ensures Passes(a + b, m, m)
  {
    PassesBoth(a, b, m, m, m);
  }

  /** At any depth below the outermost brace a value leaves the mode alone. */
  lemma {:induction false} ValuePasses(v: Value, d: int)
    requires GoodValue(v) && d >= 1
    ensures Passes(Write(v), Mode(d, false, false), Mode(d, false, false))
    decreases v
  {
    var m := Mode(d, false, false);
    match v
    case Scalar(text) => NeutralPasses(text, d);
    case Text(chars) => TextPasses(chars, d);
    case Array(blank, items) =>
      ItemsPass(items, d);
      NeutralPasses(blank, d);
      NeutralPasses("[", d);
      NeutralPasses("]", d);
      Along(WriteItems(items), "]", m);
      Along(blank, WriteItems(items) + "]", m);
      Along("[", blank + (WriteItems(items) + "]"), m);
    case Object(blank, members) =>
      var deeper := Mode(d + 1, false, false);
      InsidePasses(blank, members, d + 1);
      assert Passes("}", deeper, m) && Passes("{", m, deeper);
      PassesBoth(Inside(blank, members), "}", deeper, deeper, m);
      PassesBoth("{", Inside(blank, members) + "}", m, deeper, m);
  }

  lemma {:induction false} ItemsPass(items: Items, d: int)
    requires GoodItems(items) && d >= 1
    ensures Passes(WriteItems(items), Mode(d, false, false), Mode(d, false, false))
    decreases items
  {
    if !items.Item? {
    } else {
      var m := Mode(d, false, false);
      var comma := if items.rest.NoItem? then "" else ",";
      ItemsPass(items.rest, d);
      ValuePasses(items.value, d);
      NeutralPasses(comma, d);
      NeutralPasses(items.before, d);
      NeutralPasses(items.after, d);
      var s1 := comma + WriteItems(items.rest);
      Along(comma, WriteItems(items.rest), m);
      Along(items.after, s1, m);
      Along(Write(items.value), items.after + s1, m);
      Along(items.before, Write(items.value) + (items.after + s1), m);
    }
  }

  lemma InsidePasses(blank: string, members: Members, d: int)
    requires Neutral(blank) && GoodMembers(members) && d >= 1
    ensures Passes(Inside(blank, members), Mode(d, false, false), Mode(d, false, false))
    decreases members, 1
  {
    MembersPass(members, d);
    NeutralPasses(blank, d);
    Along(blank, WriteMembers(members), Mode(d, false, false));
  }

  lemma {:induction false} MembersPass(members: Members, d: int)
    requires GoodMembers(members) && d >= 1
    ensures Passes(WriteMembers(members), Mode(d, false, false), Mode(d, false, false))
    decreases members, 0
  {
    if !members.Member? {
    } else {
      var m := Mode(d, false, false);
      var comma := if members.rest.NoMember? then "" else ",";
      var colon := members.colonBefore + ":" + members.colonAfter;
      MembersPass(members.rest, d);
      ValuePasses(members.value, d);
      TextPasses(members.name, d);
      NeutralPasses(comma, d);
      NeutralPasses(colon, d);
      NeutralPasses(members.before, d);
      NeutralPasses(members.after, d);
      var s1 := comma + WriteMembers(members.rest);
      var s2 := members.after + s1;
      var s3 := Write(members.value) + s2;
      var s4 := colon + s3;
      Along(comma, WriteMembers(members.rest), m);
      Along(members.after, s1, m);
      Along(Write(members.value), s2, m);
      Along(colon, s3, m);
      Along(WriteText(members.name), s4, m);
      Along(members.before, WriteText(members.name) + s4, m);
    }
  }

  // ---------------------------------------------------------------- embedded objects are found

  /** The scan that starts at an object's brace ends with the object, whatever follows. */
  lemma ScanTakesObject(v: Value, suffix: string)
    requires GoodValue(v) && v.Object?
    ensures Scan(Write(v) + suffix, START) == Some(|Write(v)|)
  {
    var inside := Inside(v.blank, v.members);
    var one := Mode(1, false, false);
    InsidePasses(v.blank, v.members, 1);
    assert Passes("{", START, one);
    PassesBoth("{", inside, START, one, one);
    assert Write(v) + suffix == ("{" + inside) + ("}" + suffix);
    ScanAfter("{" + inside, "}" + suffix, START, one);
    assert |Write(v)| == |"{" + inside| + 1;
  }

  lemma {:induction false} ExtractedIsListed(text: string, start: nat, n: nat)
    requires start < n <= |text| && text[start] == '{' && ExtractedAt(text, start).Some?
    ensures ExtractedAt(text, start).value in Extractions(text, n)
    decreases n
  {
    if start >= n - 1 {
    } else {
      ExtractedIsListed(text, start, n - 1);
    }
  }

  /** An object between any two texts is found from its own brace, exactly, and is among the candidates. */
  lemma ObjectIsFound(prefix: string, v: Value, suffix: string)
    requires GoodValue(v) && v.Object?
    ensures var text := prefix + Write(v) + suffix;
            && |prefix| < |text| && ExtractedAt(text, |prefix|) == Some(Write(v))
            && Write(v) in Candidates(text)
  {
    var text := prefix + Write(v) + suffix;
    assert text[|prefix|..] == Write(v) + suffix;
    ScanTakesObject(v, suffix);
    assert text[|prefix|..|prefix| + |Write(v)|] == Write(v);
    assert text[|prefix|] == '{';
    ExtractedIsListed(text, |prefix|, |text|);
  }

  /** If no brace comes before it, the object is the first candidate. */
  lemma FirstCandidate(prefix: string, v: Value, suffix: string)
    requires GoodValue(v) && v.Object? && '{' !in prefix
    ensures var candidates := Candidates(prefix + Write(v) + suffix); candidates != [] && candidates[0] == Write(v)
  {
    var text := prefix + Write(v) + suffix;
    ObjectIsFound(prefix, v, suffix);
    NoBraceNothing(text, 0, |prefix|);
    assert Extractions(text, |prefix| + 1) == [Write(v)];
    FirstStays(text, |prefix| + 1, |text|);
  }

  lemma {:induction false} FirstStays(text: string, a: nat, b: nat)
    requires 0 < a <= b <= |text| && Extractions(text, a) != []
    ensures Extractions(text, b) != [] && Dedup(Extractions(text, b))[0] == Extractions(text, a)[0]
    ensures Dedup(Extractions(text, b)) != []
    decreases b
  {
    if a >= b {
    } else {
      FirstStays(text, a, b - 1);
    }
    DedupFirst(Extractions(text, b));
  }

  lemma {:induction false} DedupFirst(s: seq<string>)
    requires s != []
    ensures Dedup(s) != [] && Dedup(s)[0] == s[0]
  {
    if |s| <= 1 {
    } else {
      DedupFirst(s[..|s| - 1]);
    }
  }
}
