/**
 Bounding what is stored: output truncation over UTF-8 (agent_core/tools/subprocess.py) and the
 recursive capping of payload strings (backend/services/result_persistence.py).
 */
module Capping {
  import opened Text
  import opened AgentRuntime

  // ----- UTF-8 (section 3 of RFC 3629) -----------------------------------

  type Byte = b: int | 0 <= b < 256

  function EncodeChar(c: char): (r: seq<Byte>)
    ensures 1 <= |r| <= 4
  {
    var n := c as int;
    if n < 0x80 then [n]
    else if n < 0x800 then [0xC0 + n / 64, 0x80 + n % 64]
    else if n < 0x1_0000 then [0xE0 + n / 4096, 0x80 + n / 64 % 64, 0x80 + n % 64]
    else [0xF0 + n / 262144, 0x80 + n / 4096 % 64, 0x80 + n / 64 % 64, 0x80 + n % 64]
  }

  function Encode(s: string): seq<Byte> {
    if s == "" then [] else EncodeChar(s[0]) + Encode(s[1..])
  }

  /** How many bytes a sequence takes that begins with `b`; 0 for a byte that begins none. */
  function LengthOf(b: Byte): (n: nat)
    ensures n <= 4
  {
    if b < 0x80 then 1
    else if 0xC2 <= b <= 0xDF then 2
    else if 0xE0 <= b <= 0xEF then 3
    else if 0xF0 <= b <= 0xF4 then 4
    else 0
  }

  function Payload(b: Byte): int {
    b % 64
  }

  predicate IsTail(b: Byte) {
    0x80 <= b <= 0xBF
  }

  /** The code point a complete sequence stands for. */
  function CodePoint(b: seq<Byte>): int
    requires 1 <= |b| <= 4
  {
    if |b| == 1 then b[0]
    else if |b| == 2 then (b[0] - 0xC0) * 64 + Payload(b[1])
    else if |b| == 3 then (b[0] - 0xE0) * 4096 + Payload(b[1]) * 64 + Payload(b[2])
    else (b[0] - 0xF0) * 262144 + Payload(b[1]) * 4096 + Payload(b[2]) * 64 + Payload(b[3])
  }

  const LEAST: seq<int> := [0, 0, 0x80, 0x800, 0x1_0000]

  predicate IsScalar(n: int) {
    0 <= n < 0xD800 || 0xE000 <= n < 0x11_0000
  }

  /** A complete sequence: right length, continuation bytes, shortest form, no surrogate. */
  predicate WellFormed(b: seq<Byte>) {
    && 1 <= |b| <= 4 && LengthOf(b[0]) == |b|
    && (forall i :: 1 <= i < |b| ==> IsTail(b[i]))
    && LEAST[|b|] <= CodePoint(b) && IsScalar(CodePoint(b))
  }

  predicate StartsWell(b: seq<Byte>) {
    b != [] && LengthOf(b[0]) <= |b| && WellFormed(b[..LengthOf(b[0])])
  }

  /** decode("utf-8", errors="ignore"): bytes that are part of no well-formed sequence are dropped. */
  function Decode(b: seq<Byte>): string {
    if b == [] then ""
    else if StartsWell(b) then
      var n := LengthOf(b[0]);
      [CodePoint(b[..n]) as char] + Decode(b[n..])
    else Decode(b[1..])
  }

  lemma Places(n: nat)
    ensures n == n / 64 * 64 + n % 64
    ensures n / 64 == n / 4096 * 64 + n / 64 % 64
    ensures n / 4096 == n / 262144 * 64 + n / 4096 % 64
  {
  }

  /** One character of each length, as section 3 of RFC 3629 lays out its bits. */
  lemma KnownEncodings()
    ensures Encode("A") == [0x41] && Encode("\U{E9}") == [0xC3, 0xA9]
    ensures Encode("\U{20AC}") == [0xE2, 0x82, 0xAC] && Encode("\U{1F600}") == [0xF0, 0x9F, 0x98, 0x80]
  {
    assert Encode("") == [];
    assert "A"[1..] == "" && "\U{E9}"[1..] == "" && "\U{20AC}"[1..] == "" && "\U{1F600}"[1..] == "";
  }

  lemma EncodedShape(c: char)
    ensures LengthOf(EncodeChar(c)[0]) == |EncodeChar(c)|
    ensures forall i :: 1 <= i < |EncodeChar(c)| ==> IsTail(EncodeChar(c)[i])
  {
  }

  lemma EncodedValue(c: char)
    ensures var e := EncodeChar(c); LengthOf(e[0]) == |e| && CodePoint(e) == c as int
    ensures forall i :: 1 <= i < |EncodeChar(c)| ==> IsTail(EncodeChar(c)[i])
  {
    EncodedShape(c);
    EncodedCodePoint(c);
  }

  lemma EncodedCodePoint(c: char)
    ensures CodePoint(EncodeChar(c)) == c as int
  {
    Places(c as int);
    TailPayload(c as int % 64);
    TailPayload(c as int / 64 % 64);
    TailPayload(c as int / 4096 % 64);
  }

  lemma TailPayload(n: nat)
    requires n < 64
    ensures Payload(0x80 + n) == n
  {
  }

  lemma EncodedIsWellFormed(c: char)
    ensures WellFormed(EncodeChar(c))
  {
    EncodedValue(c);
    var n := c as int;
    assert IsScalar(n);
  }

  lemma DecodeOne(c: char, rest: seq<Byte>)
    ensures Decode(EncodeChar(c) + rest) == [c] + Decode(rest)
  {
    EncodedValue(c);
    EncodedIsWellFormed(c);
    var b := EncodeChar(c) + rest;
    assert b[..|EncodeChar(c)|] == EncodeChar(c) && b[|EncodeChar(c)|..] == rest;
  }

  lemma {:induction false} TailsVanish(b: seq<Byte>)
    requires forall i :: 0 <= i < |b| ==> IsTail(b[i])
    ensures Decode(b) == ""
  {
    if b != [] {
      TailsVanish(b[1..]);
    }
  }

  /** A sequence cut short decodes to nothing. */
  lemma CutCharVanishes(c: char, n: nat)
    requires n < |EncodeChar(c)|
    ensures Decode(EncodeChar(c)[..n]) == ""
  {
    EncodedValue(c);
    var b := EncodeChar(c)[..n];
    if n > 0 {
      assert b[0] == EncodeChar(c)[0];
      assert !StartsWell(b);
      forall i | 0 <= i < |b[1..]| ensures IsTail(b[1..][i]) {
        assert b[1..][i] == EncodeChar(c)[i + 1];
      }
      TailsVanish(b[1..]);
    }
  }

  lemma {:induction false} RoundTrip(s: string)
    ensures Decode(Encode(s)) == s
  {
    if s != "" {
      DecodeOne(s[0], Encode(s[1..]));
      RoundTrip(s[1..]);
    }
  }

  /** The longest prefix of whole characters that encodes into `n` bytes. */
  function Fitting(s: string, n: nat): (r: string)
    ensures r <= s
  {
    if s == "" || |EncodeChar(s[0])| > n then ""
    else [s[0]] + Fitting(s[1..], n - |EncodeChar(s[0])|)
  }

  /** What `Fitting` is: it fits, and no longer prefix does. */
  lemma {:induction false} FittingIsLongest(s: string, n: nat, k: nat)
    requires k <= |s|
    ensures |Encode(s[..k])| <= n <==> k <= |Fitting(s, n)|
  {
    if k > 0 {
      assert s[..k][0] == s[0] && s[..k][1..] == s[1..][..k - 1];
      if |EncodeChar(s[0])| <= n {
        FittingIsLongest(s[1..], n - |EncodeChar(s[0])|, k - 1);
      }
    }
  }

  /** Cutting the encoded text anywhere and decoding leniently gives that prefix. */
  lemma {:induction false} CutDecodes(s: string, n: nat)
    requires n <= |Encode(s)|
    ensures Decode(Encode(s)[..n]) == Fitting(s, n)
  {
    if s != "" {
      var e := EncodeChar(s[0]);
      if n < |e| {
        assert Encode(s)[..n] == e[..n];
        CutCharVanishes(s[0], n);
      } else {
        assert Encode(s)[..n] == e + Encode(s[1..])[..n - |e|];
        DecodeOne(s[0], Encode(s[1..])[..n - |e|]);
        CutDecodes(s[1..], n - |e|);
      }
    }
  }

  lemma CutOrWhole(s: string, n: nat)
    ensures |Encode(s)| <= n ==> Fitting(s, n) == s
    ensures |Encode(s)| > n ==> Decode(Encode(s)[..n]) == Fitting(s, n)
  {
    if |Encode(s)| <= n {
      FittingIsLongest(s, n, |s|);
      assert s[..|s|] == s;
    } else {
      CutDecodes(s, n);
    }
  }

  // ----- lines -----------------------------------------------------------

  /** The single-character boundaries of str.splitlines. */
  predicate IsBreak(c: char) {
    '\n' <= c <= '\r' || '\U{1C}' <= c <= '\U{1E}' || c == '\U{85}' || '\U{2028}' <= c <= '\U{2029}'
  }

  function BreakLength(s: string): (n: nat)
    requires s != ""
    ensures n <= |s|
  {
    if "\r\n" <= s then 2 else if IsBreak(s[0]) then 1 else 0
  }

  /** str.splitlines(); a final boundary opens no further line. */
  function SplitLines(s: string): seq<string> {
    if s == "" then []
    else if BreakLength(s) > 0 then [""] + SplitLines(s[BreakLength(s)..])
    else
      var rest := SplitLines(s[1..]);
      if rest == [] then [[s[0]]] else [[s[0]] + rest[0]] + rest[1..]
  }

  function JoinLines(lines: seq<string>): string {
    if lines == [] then "" else Join(lines, '\n')
  }

  /** One more character in front of split lines, newlines being the only boundaries. */
  lemma LinesCons(s: string)
    requires s != "" && (IsBreak(s[0]) ==> s[0] == '\n')
    ensures var rest := SplitLines(s[1..]);
            SplitLines(s) == if s[0] == '\n' then [""] + rest
                             else if rest == [] then [[s[0]]] else [[s[0]] + rest[0]] + rest[1..]
  {
    assert BreakLength(s) == if s[0] == '\n' then 1 else 0;
  }

  lemma JoinedCons(c: char, rest: seq<string>)
    ensures JoinLines([""] + rest) == if rest == [] then "" else "\n" + JoinLines(rest)
    ensures rest != [] && c != '\n' ==> JoinLines([[c] + rest[0]] + rest[1..]) == [c] + JoinLines(rest)
  {
    if rest != [] {
      JoinPrepend('\n', rest, '\n');
      JoinPrepend(c, rest, '\n');
    }
  }

  function WithoutFinalNewline(s: string): string {
    if EndsWith(s, "\n") then s[..|s| - 1] else s
  }

  lemma FinalNewlineCons(s: string)
    requires s != ""
    ensures |s| > 1 ==> WithoutFinalNewline(s) == [s[0]] + WithoutFinalNewline(s[1..])
  {
    assert s == [s[0]] + s[1..];
    if |s| > 1 {
      assert s[|s| - 1..] == s[1..][|s| - 2..];
    }
  }

  /** Splitting and joining only loses a final newline, when newlines are the only boundaries. */
  lemma {:induction false} LinesRejoin(s: string)
    requires forall i :: 0 <= i < |s| && IsBreak(s[i]) ==> s[i] == '\n'
    ensures SplitLines(s) == [] <==> s == ""
    ensures JoinLines(SplitLines(s)) == WithoutFinalNewline(s)
  {
    if s != "" {
      LinesRejoin(s[1..]);
      LinesCons(s);
      JoinedCons(s[0], SplitLines(s[1..]));
      FinalNewlineCons(s);
      assert s == [s[0]] + s[1..];
    }
  }

  /** The line boundaries that str.splitlines knows, one character each. */
  predicate Unbroken(s: string) {
    forall c :: c in s ==> c !in "\n\r\U{B}\U{C}\U{1C}\U{1D}\U{1E}\U{85}\U{2028}\U{2029}"
  }

  /** One boundary in front of the text `rest`; a carriage return takes a following newline along. */
  predicate IsBoundary(boundary: string, rest: string) {
    || boundary == "\r\n"
    || (|boundary| == 1 && !Unbroken(boundary) && !(boundary == "\r" && "\n" <= rest))
  }

  lemma BreakMeans(c: char)
    ensures IsBreak(c) <==> !Unbroken([c])
  {
    assert [c][0] == c && c in [c];
  }

  lemma {:induction false} OneLine(s: string)
    requires Unbroken(s) && s != ""
    ensures SplitLines(s) == [s]
  {
    assert s == [s[0]] + s[1..];
    BreakMeans(s[0]);
    if |s| > 1 {
      OneLine(s[1..]);
    } else {
      assert s[1..] == "" && SplitLines("") == [];
      assert s == [s[0]];
    }
  }

  /** Lines end at the first boundary, and the rest is split the same way. */
  lemma {:induction false} NextLine(line: string, boundary: string, rest: string)
    requires Unbroken(line) && IsBoundary(boundary, rest)
    ensures SplitLines(line + boundary + rest) == [line] + SplitLines(rest)
  {
    var s := line + boundary + rest;
    if line == "" {
      BreakMeans(s[0]);
      assert s == boundary + rest && s[|boundary|..] == rest;
      if |boundary| == 1 {
        assert boundary == [s[0]] && s[1..] == rest;
        assert |s| > 1 ==> s[1] == rest[0];
      }
    } else {
      BreakMeans(line[0]);
      assert line == [line[0]] + line[1..];
      assert s[0] == line[0] && s[1..] == line[1..] + boundary + rest;
      NextLine(line[1..], boundary, rest);
    }
  }

  // ----- truncate_output -------------------------------------------------

  const MAX_OUTPUT_BYTES := 51200
  const MAX_OUTPUT_LINES := 2000
  const CUT_MARKER := "\n...[truncated: output exceeded 50KB/2000-line cap]..."

  function Head(text: string): string {
    JoinLines(CapTo(SplitLines(text), MAX_OUTPUT_LINES))
  }

  predicate IsCut(text: string) {
    |SplitLines(text)| > MAX_OUTPUT_LINES || |Encode(Head(text))| > MAX_OUTPUT_BYTES
  }

  /**
   The result is the longest whole-character prefix of the first 2000 lines that fits 51200
   bytes, followed by the marker exactly when something was cut.
   */
  method TruncateOutput(text: string) returns (out: string, truncated: bool)
    ensures var head := JoinLines(CapTo(SplitLines(text), 2000));
            && (truncated <==> |SplitLines(text)| > 2000 || |Encode(head)| > 51200)
            && out == Fitting(head, 51200) + (if truncated then "\n...[truncated: output exceeded 50KB/2000-line cap]..." else "")
            && (!truncated ==> out == head)
  {
    if text == "" {
      return text, false;
    }
    truncated := false;
    var lines := SplitLines(text);
    if |lines| > MAX_OUTPUT_LINES {
      lines := lines[..MAX_OUTPUT_LINES];
      truncated := true;
    }
    out := JoinLines(lines);
    assert out == Head(text);
    var encoded := Encode(out);
    CutOrWhole(out, MAX_OUTPUT_BYTES);
    if |encoded| > MAX_OUTPUT_BYTES {
      out := Decode(encoded[..MAX_OUTPUT_BYTES]);
      truncated := true;
    }
    if truncated {
      out := out + CUT_MARKER;
    }
  }

  // ----- payload strings -------------------------------------------------

  const MAX_STRING_CHARS := 8192
  const TRUNCATED := "...[truncated]"
  const CIRCULAR := "...[circular]"

  function CapText(s: string): string {
    if |s| <= MAX_STRING_CHARS then s else s[..MAX_STRING_CHARS] + TRUNCATED
  }

  /** A payload without sharing, capped. */
  function CapJson(j: Json): Json {
    match j
    case JStr(s) => JStr(CapText(s))
    case JList(items) => JList(seq(|items|, i requires 0 <= i < |items| => CapJson(items[i])))
    case JDict(fields) => JDict(map k | k in fields :: CapJson(fields[k]))
    case _ => j
  }

  predicate Bounded(j: Json) {
    match j
    case JStr(s) => |s| <= MAX_STRING_CHARS + |TRUNCATED|
    case JList(items) => forall i :: 0 <= i < |items| ==> Bounded(items[i])
    case JDict(fields) => forall k :: k in fields ==> Bounded(fields[k])
    case _ => true
  }

  lemma CapTextTwice(s: string)
    ensures CapText(CapText(s)) == CapText(s)
  {
  }

  /** Capping a stored payload again changes nothing. */
  lemma {:induction false} CapJsonTwice(j: Json)
    ensures CapJson(CapJson(j)) == CapJson(j)
  {
    match j
    case JStr(s) => CapTextTwice(s);
    case JList(items) =>
      forall i | 0 <= i < |items| ensures CapJson(CapJson(items[i])) == CapJson(items[i]) {
        CapJsonTwice(items[i]);
      }
    case JDict(fields) =>
      forall k | k in fields ensures CapJson(CapJson(fields[k])) == CapJson(fields[k]) {
        CapJsonTwice(fields[k]);
      }
    case _ =>
  }

  /** Same shape and keys, every string of up to 8192 characters kept, and longer ones cut and marked. */
  ghost predicate CappedForm(j: Json, r: Json) {
    match j
    case JStr(s) => r == JStr(if |s| <= 8192 then s else s[..8192] + "...[truncated]")
    case JList(items) =>
      r.JList? && |r.items| == |items| && forall i :: 0 <= i < |items| ==> CappedForm(items[i], r.items[i])
    case JDict(fields) =>
      r.JDict? && r.fields.Keys == fields.Keys && forall k :: k in fields ==> CappedForm(fields[k], r.fields[k])
    case _ => r == j
  }

  /** Capping changes nothing but long strings. */
  lemma {:induction false} CapJsonMeans(j: Json)
    ensures CappedForm(j, CapJson(j))
  {
    match j
    case JList(items) =>
      forall i | 0 <= i < |items| ensures CappedForm(items[i], CapJson(j).items[i]) {
        CapJsonMeans(items[i]);
      }
    case JDict(fields) =>
      forall k | k in fields ensures CappedForm(fields[k], CapJson(j).fields[k]) {
        CapJsonMeans(fields[k]);
      }
    case _ =>
  }

  // ----- payloads as object graphs ---------------------------------------

  datatype Value = Leaf(json: Json) | Ref(id: nat)

  datatype Container = ADict(fields: map<string, Value>) | AList(items: seq<Value>)

  type Heap = map<nat, Container>

  predicate IsLeaf(v: Value) {
    v.Leaf? ==> !v.json.JList? && !v.json.JDict?
  }

  predicate Points(h: Heap, v: Value) {
    IsLeaf(v) && (v.Ref? ==> v.id in h)
  }

  /** Every reference leads to a container of the heap. */
  ghost predicate Closed(h: Heap) {
    forall id :: id in h ==>
      match h[id]
      case AList(items) => forall i :: 0 <= i < |items| ==> Points(h, items[i])
      case ADict(fields) => forall k :: k in fields ==> Points(h, fields[k])
  }

  /** _cap_strings: `seen` holds the containers on the path, so any graph is capped in finitely many steps. */
  function CapGraph(h: Heap, v: Value, seen: set<nat>): (r: Json)
    requires Closed(h) && Points(h, v)
    ensures Bounded(r)
    decreases h.Keys - seen
  {
    match v
    case Leaf(j) => CapJson(j)
    case Ref(id) =>
      match h[id]
      case AList(items) =>
        if id in seen then JList([JStr(CIRCULAR)])
        else JList(seq(|items|, i requires 0 <= i < |items| => CapGraph(h, items[i], seen + {id})))
      case ADict(fields) =>
        if id in seen then JStr(CIRCULAR)
        else JDict(map k | k in fields :: CapGraph(h, fields[k], seen + {id}))
  }

  /** At most `n` containers are nested in each other. */
  predicate DepthAtMost(j: Json, n: nat) {
    match j
    case JList(items) => n > 0 && forall i :: 0 <= i < |items| ==> DepthAtMost(items[i], n - 1)
    case JDict(fields) => n > 0 && forall k :: k in fields ==> DepthAtMost(fields[k], n - 1)
    case _ => true
  }

  lemma FewerUnseen(h: Heap, seen: set<nat>, id: nat)
    requires id in h && id !in seen
    ensures |h.Keys - (seen + {id})| + 1 == |h.Keys - seen|
  {
    assert h.Keys - seen == (h.Keys - (seen + {id})) + {id};
  }

  /** A path of the result visits each container at most once, and then the marker's own list. */
  lemma {:induction false} GraphIsShallow(h: Heap, v: Value, seen: set<nat>)
    requires Closed(h) && Points(h, v)
    ensures DepthAtMost(CapGraph(h, v, seen), |h.Keys - seen| + 1)
    decreases h.Keys - seen
  {
    if v.Ref? && v.id !in seen {
      FewerUnseen(h, seen, v.id);
      match h[v.id]
      case AList(items) =>
        forall i | 0 <= i < |items|
          ensures DepthAtMost(CapGraph(h, items[i], seen + {v.id}), |h.Keys - seen|)
        {
          GraphIsShallow(h, items[i], seen + {v.id});
        }
      case ADict(fields) =>
        forall k | k in fields
          ensures DepthAtMost(CapGraph(h, fields[k], seen + {v.id}), |h.Keys - seen|)
        {
          GraphIsShallow(h, fields[k], seen + {v.id});
        }
    }
  }

  // ----- graphs without cycles -------------------------------------------

  predicate RankedBelow(rank: map<nat, nat>, v: Value, bound: nat) {
    v.Ref? ==> v.id in rank && rank[v.id] < bound
  }

  /** Every container ranks above the containers it refers to. */
  ghost predicate Acyclic(h: Heap, rank: map<nat, nat>) {
    h.Keys <= rank.Keys
    && forall id :: id in h ==>
      match h[id]
      case AList(items) => forall i :: 0 <= i < |items| ==> RankedBelow(rank, items[i], rank[id])
      case ADict(fields) => forall k :: k in fields ==> RankedBelow(rank, fields[k], rank[id])
  }

  function RankOf(rank: map<nat, nat>, v: Value): nat {
    if v.Ref? && v.id in rank then rank[v.id] + 1 else 0
  }

  /** The tree an acyclic graph stands for. */
  function Unfold(h: Heap, rank: map<nat, nat>, v: Value): Json
    requires Closed(h) && Acyclic(h, rank) && Points(h, v)
    decreases RankOf(rank, v)
  {
    match v
    case Leaf(j) => j
    case Ref(id) =>
      match h[id]
      case AList(items) =>
        JList(seq(|items|, i requires 0 <= i < |items| =>
          assert RankedBelow(rank, items[i], rank[id]); Unfold(h, rank, items[i])))
      case ADict(fields) =>
        JDict(map k | k in fields :: assert RankedBelow(rank, fields[k], rank[id]); Unfold(h, rank, fields[k]))
  }

  predicate Ancestors(rank: map<nat, nat>, seen: set<nat>, v: Value) {
    forall id :: id in seen ==> id in rank && RankOf(rank, v) <= rank[id]
  }

  /** Without cycles no marker appears: the result is the unfolded payload with its strings capped. */
  lemma {:induction false} AcyclicGraphIsCapped(h: Heap, rank: map<nat, nat>, v: Value, seen: set<nat>)
    requires Closed(h) && Acyclic(h, rank) && Points(h, v) && Ancestors(rank, seen, v)
    ensures CapGraph(h, v, seen) == CapJson(Unfold(h, rank, v))
    decreases RankOf(rank, v)
  {
    if v.Ref? {
      assert v.id !in seen;
      match h[v.id]
      case AList(items) =>
        forall i | 0 <= i < |items|
          ensures CapGraph(h, items[i], seen + {v.id}) == CapJson(Unfold(h, rank, items[i]))
        {
          assert RankedBelow(rank, items[i], rank[v.id]);
          AcyclicGraphIsCapped(h, rank, items[i], seen + {v.id});
        }
      case ADict(fields) =>
        forall k | k in fields
          ensures CapGraph(h, fields[k], seen + {v.id}) == CapJson(Unfold(h, rank, fields[k]))
        {
          assert RankedBelow(rank, fields[k], rank[v.id]);
          AcyclicGraphIsCapped(h, rank, fields[k], seen + {v.id});
        }
    }
  }

  /** A list that contains itself: one level, then the marker. */
  lemma SelfReference(h: Heap, id: nat)
    requires h == map[id := AList([Ref(id)])]
    ensures Closed(h) && CapGraph(h, Ref(id), {}) == JList([JList([JStr("...[circular]")])])
  {
    var inner := CapGraph(h, Ref(id), {} + {id});
    assert inner == JList([JStr(CIRCULAR)]);
    assert CapGraph(h, Ref(id), {}).items == [inner];
  }

  /** A dictionary that contains itself: the marker stands for it as a text. */
  lemma SelfContained(h: Heap, id: nat, key: string)
    requires h == map[id := ADict(map[key := Ref(id)])]
    ensures Closed(h) && CapGraph(h, Ref(id), {}) == JDict(map[key := JStr("...[circular]")])
  {
    var inner := CapGraph(h, Ref(id), {} + {id});
    assert inner == JStr("...[circular]");
    assert CapGraph(h, Ref(id), {}).fields == map[key := inner];
  }
}
