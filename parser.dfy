/**
 * The response parser: `parse_llm_response` splits the model's markdown reply
 * into the executive summary, the technical documentation and the Python code,
 * substitutes a fallback for every section it cannot fill, and flags a Python
 * section whose code fences do not pair up.
 *
 * `ParseSpec` says what the result is without any sorting: a section's body runs
 * from the end of its heading's line to the nearest later heading. The method
 * `ParseLlmResponse` does what the source does (collect positions, sort them,
 * slice between neighbours, patch fallbacks, count fences) and is proved to
 * compute `ParseSpec`.
 */
module ResponseParser {
  import opened Outcomes
  import opened Text

  datatype SectionKey = ExecutiveSummary | TechnicalDocs | PythonCode

  /** The dictionary the parser returns. `pythonCodeTruncated` stands for the key
      `python_code_truncated`, which is either absent or set to True. */
  datatype ParsedSections = ParsedSections(
    executiveSummary: string,
    technicalDocs: string,
    pythonCode: string,
    pythonCodeTruncated: bool)
  {
    function Get(k: SectionKey): string {
      match k
      case ExecutiveSummary => executiveSummary
      case TechnicalDocs => technicalDocs
      case PythonCode => pythonCode
    }
  }

  /** The order of the parser's pattern list. */
  const PatternOrder: seq<SectionKey> := [ExecutiveSummary, TechnicalDocs, PythonCode]

  /** The pattern of section `k` is `##\s*` + FirstWord(k) + `\s+` + SecondWord(k). */
  function FirstWord(k: SectionKey): string {
    match k
    case ExecutiveSummary => "EXECUTIVE"
    case TechnicalDocs => "TECHNICAL"
    case PythonCode => "PYTHON"
  }

  function SecondWord(k: SectionKey): string {
    match k
    case ExecutiveSummary => "SUMMARY"
    case TechnicalDocs => "DOCUMENTATION"
    case PythonCode => "CODE"
  }

  /** The heading as the system prompt spells it, e.g. `## EXECUTIVE SUMMARY`. */
  function HeadingText(k: SectionKey): string {
    "## " + FirstWord(k) + " " + SecondWord(k)
  }

  const FallbackPrefix := "_No"

  /** The text stored for a section the reply did not fill. */
  function Fallback(k: SectionKey): string {
    FallbackPrefix + match k
      case ExecutiveSummary => " executive summary was generated. The LLM may not have followed the expected format._"
      case TechnicalDocs => " technical documentation was generated._"
      case PythonCode => " Python code was generated._"
  }

  /** Every fallback is a non-empty `_No...` text. */
  lemma FallbackFacts(k: SectionKey)
    ensures Fallback(k) != [] && StartsWith(Fallback(k), FallbackPrefix)
  {
  }

  /** A triple backtick: one code-fence marker. */
  const Fence := "```"

  // ---------------------------------------------------------------------------
  // The three heading regexes, searched case-insensitively
  // ---------------------------------------------------------------------------

  /** `w` matches `s` at `i` when ASCII letter case is ignored. */
  predicate WordAt(s: string, i: nat, w: string)
    decreases |w|
  {
    if w == [] then i <= |s|
    else i < |s| && LowerChar(s[i]) == LowerChar(w[0]) && WordAt(s, i + 1, w[1..])
  }

  /** The heading pattern of section `k` matches starting at index `i`. Each word
      begins with a letter, so `\s*` and `\s+` can only stop at the end of the
      whitespace run, and the match is decided without backtracking. */
  predicate HeadingAt(s: string, i: nat, k: SectionKey) {
    i + 2 <= |s| && s[i] == '#' && s[i + 1] == '#' && WordsAt(s, SkipSpace(s, i + 2), k)
  }

  /** `W1\s+W2` of section `k` matches at `j`. */
  predicate WordsAt(s: string, j: nat, k: SectionKey) {
    WordAt(s, j, FirstWord(k)) && SecondWordAfter(s, j + |FirstWord(k)|, k)
  }

  /** `\s+W2` of section `k` matches at `m`. */
  predicate SecondWordAfter(s: string, m: nat, k: SectionKey) {
    m <= |s| && SkipSpace(s, m) > m && WordAt(s, SkipSpace(s, m), SecondWord(k))
  }

  /** The pattern read as a regex: `##`, some `a >= 0` whitespace characters, the
      first word, some `b >= 1` whitespace characters, the second word. */
  predicate RegexMatchAt(s: string, i: nat, k: SectionKey, a: nat, b: nat) {
    && i + 2 <= |s| && s[i] == '#' && s[i + 1] == '#'
    && i + 2 + a <= |s| && (forall t :: i + 2 <= t < i + 2 + a ==> IsSpace(s[t]))
    && WordAt(s, i + 2 + a, FirstWord(k))
    && var m := i + 2 + a + |FirstWord(k)|;
       && 1 <= b && m + b <= |s| && (forall t :: m <= t < m + b ==> IsSpace(s[t]))
       && WordAt(s, m + b, SecondWord(k))
  }

  /** Both words of every pattern are non-empty and begin with an upper-case letter. */
  lemma WordsStartWithLetters(k: SectionKey)
    ensures |FirstWord(k)| > 0 && 'A' <= FirstWord(k)[0] <= 'Z'
    ensures |SecondWord(k)| > 0 && 'A' <= SecondWord(k)[0] <= 'Z'
  {
  }

  /** A character that matches an upper-case letter case-insensitively is not whitespace. */
  lemma LetterIsNotSpace(c: char, letter: char)
    requires 'A' <= letter <= 'Z' && LowerChar(c) == LowerChar(letter)
    ensures !IsSpace(c)
  {
  }

  /** A match of the deterministic matcher is a match of the regex. */
  lemma {:induction false} HeadingIsRegexMatch(s: string, i: nat, k: SectionKey)
    requires HeadingAt(s, i, k)
    ensures exists a: nat, b: nat :: RegexMatchAt(s, i, k, a, b)
  {
    var j := SkipSpace(s, i + 2);
    SkipSpaceFacts(s, i + 2);
    var m := j + |FirstWord(k)|;
    var n := SkipSpace(s, m);
    SkipSpaceFacts(s, m);
    assert RegexMatchAt(s, i, k, j - (i + 2), n - m);
  }

  /** A match of the regex is found by the deterministic matcher: each word starts with a
      letter, so the whitespace runs the regex takes are the maximal ones. */
  lemma RegexMatchIsHeading(s: string, i: nat, k: SectionKey, a: nat, b: nat)
    requires RegexMatchAt(s, i, k, a, b)
    ensures HeadingAt(s, i, k)
  {
    WordsStartWithLetters(k);
    var w1, w2 := FirstWord(k), SecondWord(k);
    var j := i + 2 + a;
    assert LowerChar(s[j]) == LowerChar(w1[0]);
    LetterIsNotSpace(s[j], w1[0]);
    SkipSpaceAt(s, i + 2, j);
    var m := j + |w1|;
    assert LowerChar(s[m + b]) == LowerChar(w2[0]);
    LetterIsNotSpace(s[m + b], w2[0]);
    SkipSpaceAt(s, m, m + b);
  }

  /** Two different section patterns never match at the same index: their first
      words begin with different letters. */
  lemma HeadingKeysExclusive(s: string, i: nat, k1: SectionKey, k2: SectionKey)
    requires HeadingAt(s, i, k1) && HeadingAt(s, i, k2)
    ensures k1 == k2
  {
    var j := SkipSpace(s, i + 2);
    assert LowerChar(s[j + 0]) == LowerChar(FirstWord(k1)[0]);
    assert LowerChar(s[j + 0]) == LowerChar(FirstWord(k2)[0]);
  }

  /** For each index of `s`, whether section `k`'s pattern matches there. */
  function MatchTable(s: string, k: SectionKey): (m: seq<bool>)
    ensures |m| == |s|
  {
    seq(|s|, j requires 0 <= j < |s| => HeadingAt(s, j, k))
  }

  /** The first index at or after `i` where `m` holds: a left-to-right scan. */
  function FirstTrue(m: seq<bool>, i: nat): (r: Option<nat>)
    requires i <= |m|
    ensures r.Some? ==> i <= r.value < |m| && m[r.value]
    ensures r.Some? ==> forall j :: i <= j < r.value ==> !m[j]
    ensures r.None? ==> forall j :: i <= j < |m| ==> !m[j]
    decreases |m| - i
  {
    if i == |m| then None
    else if m[i] then Some(i)
    else FirstTrue(m, i + 1)
  }

  /** `re.search(pattern, s, re.IGNORECASE).start()`, or None when nothing matches. */
  function Search(s: string, k: SectionKey): (r: Option<nat>)
    ensures r.Some? ==> r.value < |s|
  {
    FirstTrue(MatchTable(s, k), 0)
  }

  /** `re.search` finds the leftmost match, and finds nothing only when nothing matches. */
  lemma SearchLeftmost(s: string, k: SectionKey)
    ensures Search(s, k).Some? ==> HeadingAt(s, Search(s, k).value, k)
    ensures Search(s, k).Some? ==> forall j :: 0 <= j < Search(s, k).value ==> !HeadingAt(s, j, k)
    ensures Search(s, k).None? ==> forall j: nat :: !HeadingAt(s, j, k)
  {
    var m := MatchTable(s, k);
    forall j: nat | j < |s| ensures m[j] == HeadingAt(s, j, k) {
    }
  }

  /** Two sections found in the same reply start at different indices. */
  lemma FoundStartsDiffer(raw: string, k1: SectionKey, t1: nat, k2: SectionKey, t2: nat)
    requires Search(raw, k1) == Some(t1) && Search(raw, k2) == Some(t2) && k1 != k2
    ensures t1 != t2
  {
    if t1 == t2 {
      SearchLeftmost(raw, k1);
      SearchLeftmost(raw, k2);
      HeadingKeysExclusive(raw, t1, k1, k2);
    }
  }

  // ---------------------------------------------------------------------------
  // Slicing
  // ---------------------------------------------------------------------------

  /** One past the first newline at or after `i`, or the length of `s` if there is none. */
  function LineEnd(s: string, i: nat): (e: nat)
    requires i <= |s|
    ensures i <= e <= |s|
    ensures i < |s| ==> i < e
    decreases |s| - i
  {
    if i == |s| then |s|
    else if s[i] == '\n' then i + 1
    else LineEnd(s, i + 1)
  }

  /** `LineEnd` is one past the first newline at or after `i`; when there is no such
      newline it is the length of `s`. */
  lemma {:induction false} LineEndFacts(s: string, i: nat)
    requires i <= |s|
    ensures forall t :: i <= t < LineEnd(s, i) - 1 ==> s[t] != '\n'
    ensures LineEnd(s, i) > i ==> s[LineEnd(s, i) - 1] == '\n' || (LineEnd(s, i) == |s| && s[|s| - 1] != '\n')
    ensures LineEnd(s, i) == |s| && (|s| == i || s[|s| - 1] != '\n') ==> forall t :: i <= t < |s| ==> s[t] != '\n'
    decreases |s| - i
  {
    if i < |s| && s[i] != '\n' {
      LineEndFacts(s, i + 1);
    }
  }

  /** A newline at `n` with none between `i` and `n` ends the line that starts at `i`. */
  lemma {:induction false} LineEndAt(s: string, i: nat, n: nat)
    requires i <= n < |s| && s[n] == '\n'
    requires forall t :: i <= t < n ==> s[t] != '\n'
    ensures LineEnd(s, i) == n + 1
    decreases n - i
  {
    if i < n {
      LineEndAt(s, i + 1, n);
    }
  }

  /** Python's `s[a:b]` for `0 <= a, b <= len(s)`: empty when `a >= b`. */
  function Slice(s: string, a: nat, b: nat): (r: string)
    requires a <= |s| && b <= |s|
    ensures |r| == if a < b then b - a else 0
  {
    if a < b then s[a..b] else []
  }

  function Min(x: nat, y: nat): nat {
    if x <= y then x else y
  }

  /** Where the first heading of each section starts, if it is found: the results
      of the three `re.search` calls. */
  datatype Found = Found(executiveSummary: Option<nat>, technicalDocs: Option<nat>, pythonCode: Option<nat>)
  {
    function Get(k: SectionKey): Option<nat> {
      match k
      case ExecutiveSummary => executiveSummary
      case TechnicalDocs => technicalDocs
      case PythonCode => pythonCode
    }

    /** Every found start is an index of a text of length `len`. */
    predicate Within(len: nat) {
      forall k :: Get(k).Some? ==> Get(k).value < len
    }
  }

  function Locate(raw: string): (f: Found)
    ensures f.Within(|raw|)
  {
    Found(Search(raw, ExecutiveSummary), Search(raw, TechnicalDocs), Search(raw, PythonCode))
  }

  /** `Locate` holds the search result of every section. */
  lemma LocateGet(raw: string, k: SectionKey)
    ensures Locate(raw).Get(k) == Search(raw, k)
  {
  }

  /** The start of section `k`'s heading if it was found after `start`, else `len`. */
  function LaterStart(f: Found, len: nat, k: SectionKey, start: nat): nat {
    match f.Get(k)
    case Some(t) => if t > start then t else len
    case None => len
  }

  /** Where a section whose heading starts at `start` ends: at the nearest heading found
      later in the text, whatever section it belongs to, or at the end `len` of the text. */
  function SectionEnd(f: Found, len: nat, start: nat): (e: nat)
    requires f.Within(len)
    ensures e <= len
  {
    Min(LaterStart(f, len, ExecutiveSummary, start),
        Min(LaterStart(f, len, TechnicalDocs, start), LaterStart(f, len, PythonCode, start)))
  }

  /** The stripped text under section `k`'s first heading, or "" if the heading was not found. */
  function Body(raw: string, f: Found, k: SectionKey): string
    requires f.Within(|raw|)
  {
    match f.Get(k)
    case None => ""
    case Some(start) => Cut(raw, LineEnd(raw, start), SectionEnd(f, |raw|, start))
  }

  /** Python's `raw[a:b].strip()`, computed on the indices of `raw`: whitespace is
      dropped from both ends of the range (see `CutIsStrip`). */
  function Cut(raw: string, a: nat, b: nat): string
    requires a <= |raw| && b <= |raw|
    decreases if a < b then b - a else 0
  {
    if a < b && IsSpace(raw[a]) then Cut(raw, a + 1, b)
    else if a < b && IsSpace(raw[b - 1]) then Cut(raw, a, b - 1)
    else Slice(raw, a, b)
  }

  /** `Cut` is `str.strip()` applied to the slice `raw[a:b]`. */
  lemma {:induction false} CutIsStrip(raw: string, a: nat, b: nat)
    requires a <= |raw| && b <= |raw|
    ensures Cut(raw, a, b) == Strip(Slice(raw, a, b))
    decreases if a < b then b - a else 0
  {
    var s := Slice(raw, a, b);
    if a < b && IsSpace(raw[a]) {
      CutIsStrip(raw, a + 1, b);
      assert s == raw[a..b] && s[0] == raw[a];
      StripDropFront(s);
      assert s[1..] == raw[a + 1..b] == Slice(raw, a + 1, b);
    } else if a < b && IsSpace(raw[b - 1]) {
      CutIsStrip(raw, a, b - 1);
      assert s == raw[a..b] && s[|s| - 1] == raw[b - 1];
      StripDropBack(s);
      assert s[..|s| - 1] == raw[a..b - 1] == Slice(raw, a, b - 1);
    } else {
      StripKeep(s);
    }
  }

  /** The stored text of section `k`: its body, or its fallback when the body is empty. */
  function Section(raw: string, f: Found, k: SectionKey): string
    requires f.Within(|raw|)
  {
    OrFallback(Body(raw, f, k), k)
  }

  /** A body, or the fallback of section `k` when the body is empty. */
  function OrFallback(body: string, k: SectionKey): string {
    if body == "" then Fallback(k) else body
  }

  /** The truncation flag: set exactly when the stored Python code is not a `_No...`
      text and has an odd number of fence markers. */
  predicate Truncated(pythonCode: string) {
    !StartsWith(pythonCode, FallbackPrefix) && Count(pythonCode, Fence) % 2 == 1
  }

  /** The source's extra `python_out` non-emptiness test does not change the flag. */
  lemma TruncatedTest(p: string)
    ensures (p != "" && !StartsWith(p, FallbackPrefix) && Count(p, Fence) % 2 != 0) == Truncated(p)
  {
  }

  /** What `parse_llm_response` returns for `raw`, stated without any sorting. */
  function ParseSpec(raw: string): ParsedSections {
    var f := Locate(raw);
    ParsedSections(
      Section(raw, f, ExecutiveSummary),
      Section(raw, f, TechnicalDocs),
      Section(raw, f, PythonCode),
      Truncated(Section(raw, f, PythonCode)))
  }

  // ---------------------------------------------------------------------------
  // Collecting the found positions
  // ---------------------------------------------------------------------------

  /** One found heading: where it starts and which section it opens. */
  datatype Position = Position(start: nat, key: SectionKey)

  /** `positions` after the search loop has looked at the sections `keys`, in order. */
  function Collect(f: Found, keys: seq<SectionKey>): seq<Position> {
    if keys == [] then []
    else
      var k := keys[|keys| - 1];
      var ps := Collect(f, keys[..|keys| - 1]);
      match f.Get(k)
      case Some(t) => ps + [Position(t, k)]
      case None => ps
  }

  /** `ps` holds exactly one entry per found heading. */
  ghost predicate Lists(ps: seq<Position>, f: Found) {
    forall p :: p in ps <==> f.Get(p.key) == Some(p.start)
  }

  /** Headings of different sections found at different places. */
  ghost predicate ApartStarts(f: Found) {
    forall k1, k2 :: k1 != k2 && f.Get(k1).Some? && f.Get(k2).Some? ==> f.Get(k1).value != f.Get(k2).value
  }

  predicate DistinctKeys(keys: seq<SectionKey>) {
    forall a, b :: 0 <= a < b < |keys| ==> keys[a] != keys[b]
  }

  /** An entry is collected exactly when its section is among `keys` and was found there;
      entries of distinct keys found apart have distinct starts. */
  lemma {:induction false} CollectFacts(f: Found, keys: seq<SectionKey>)
    requires DistinctKeys(keys)
    requires ApartStarts(f)
    ensures forall p :: p in Collect(f, keys) <==> p.key in keys && f.Get(p.key) == Some(p.start)
    ensures DistinctStarts(Collect(f, keys))
    decreases |keys|
  {
    if keys != [] {
      var k := keys[|keys| - 1];
      var init := keys[..|keys| - 1];
      assert keys == init + [k];
      assert DistinctKeys(init);
      CollectFacts(f, init);
      assert k !in init by {
        forall a | 0 <= a < |init| ensures init[a] != k {
          assert init[a] == keys[a];
        }
      }
    }
  }

  /** The search loop lists every found heading once. */
  lemma CollectAll(f: Found)
    requires ApartStarts(f)
    ensures Lists(Collect(f, PatternOrder), f)
    ensures DistinctStarts(Collect(f, PatternOrder))
  {
    CollectFacts(f, PatternOrder);
    forall k ensures k in PatternOrder {
      match k
      case ExecutiveSummary =>
      case TechnicalDocs =>
      case PythonCode =>
    }
  }

  /** The headings `re.search` finds in one text never start at the same index. */
  lemma LocateApart(raw: string)
    ensures ApartStarts(Locate(raw))
  {
    var f := Locate(raw);
    forall k1, k2 | k1 != k2 && f.Get(k1).Some? && f.Get(k2).Some? ensures f.Get(k1).value != f.Get(k2).value {
      LocateGet(raw, k1);
      LocateGet(raw, k2);
      FoundStartsDiffer(raw, k1, f.Get(k1).value, k2, f.Get(k2).value);
    }
  }

  // ---------------------------------------------------------------------------
  // Sorting the found positions (`positions.sort(key=lambda x: x[0])`)
  // ---------------------------------------------------------------------------

  predicate StrictlySorted(ps: seq<Position>) {
    forall a, b :: 0 <= a < b < |ps| ==> ps[a].start < ps[b].start
  }

  predicate DistinctStarts(ps: seq<Position>) {
    forall a, b :: 0 <= a < b < |ps| ==> ps[a].start != ps[b].start
  }

  /** A sorted list stays sorted with an element put in front that starts before all of it. */
  lemma SortedCons(x: Position, rest: seq<Position>)
    requires StrictlySorted(rest)
    requires forall q :: q in rest ==> x.start < q.start
    ensures StrictlySorted([x] + rest)
  {
    var s := [x] + rest;
    forall a, b | 0 <= a < b < |s| ensures s[a].start < s[b].start {
      assert s[b] == rest[b - 1];
      if a > 0 {
        assert s[a] == rest[a - 1];
      }
    }
  }

  /** Starting before the head of a sorted list is starting before all of it. */
  lemma SortedBelowHead(p: Position, ps: seq<Position>)
    requires StrictlySorted(ps)
    requires ps == [] || p.start < ps[0].start
    ensures forall q :: q in ps ==> p.start < q.start
  {
    forall q | q in ps ensures p.start < q.start {
      var b :| 0 <= b < |ps| && ps[b] == q;
      assert b == 0 || ps[0].start < ps[b].start;
    }
  }

  /** The tail of a sorted list is sorted, and what no element shares no later one shares. */
  lemma SortedTail(p: Position, ps: seq<Position>)
    requires StrictlySorted(ps) && ps != []
    requires forall q :: q in ps ==> q.start != p.start
    ensures StrictlySorted(ps[1..])
    ensures forall q :: q in ps[1..] ==> q.start != p.start && ps[0].start < q.start
  {
    forall q | q in ps[1..] ensures q.start != p.start && ps[0].start < q.start {
      var b :| 0 <= b < |ps[1..]| && ps[1..][b] == q;
      assert ps[b + 1] == q;
    }
  }

  /** Putting the head back in front of the tail with `p` inserted. */
  lemma InsertStep(p: Position, ps: seq<Position>, rest: seq<Position>)
    requires ps != [] && ps[0].start < p.start
    requires forall q :: q in ps[1..] ==> ps[0].start < q.start
    requires StrictlySorted(rest)
    requires multiset(rest) == multiset(ps[1..]) + multiset{p}
    ensures StrictlySorted([ps[0]] + rest)
    ensures multiset([ps[0]] + rest) == multiset(ps) + multiset{p}
  {
    forall q | q in rest ensures ps[0].start < q.start {
      assert q in multiset(rest);
    }
    SortedCons(ps[0], rest);
    assert ps == [ps[0]] + ps[1..];
  }

  /** Inserting `p` into a sorted list at the place its start calls for. */
  function Insert(p: Position, ps: seq<Position>): (r: seq<Position>)
    requires StrictlySorted(ps)
    requires forall q :: q in ps ==> q.start != p.start
    ensures StrictlySorted(r)
    ensures multiset(r) == multiset(ps) + multiset{p}
  {
    if ps == [] || p.start < ps[0].start then
      SortedBelowHead(p, ps);
      SortedCons(p, ps);
      [p] + ps
    else
      SortedTail(p, ps);
      var rest := Insert(p, ps[1..]);
      InsertStep(p, ps, rest);
      [ps[0]] + rest
  }

  /** Lists holding the same elements, counted, hold the same elements. */
  lemma SameMembers(a: seq<Position>, b: seq<Position>)
    requires multiset(a) == multiset(b)
    ensures forall q :: q in a <==> q in b
  {
    forall q ensures q in a <==> q in b {
      assert q in a <==> q in multiset(a);
      assert q in b <==> q in multiset(b);
    }
  }

  /** The tail of a list with distinct starts has distinct starts, none of them the head's. */
  lemma DistinctTail(ps: seq<Position>)
    requires DistinctStarts(ps) && ps != []
    ensures DistinctStarts(ps[1..])
    ensures forall q :: q in ps[1..] ==> q.start != ps[0].start
  {
    forall q | q in ps[1..] ensures q.start != ps[0].start {
      var a :| 0 <= a < |ps[1..]| && ps[1..][a] == q;
      assert ps[a + 1] == q;
    }
  }

  /** Sorting by start index. Starts are distinct, so every sort (stable or not) gives this result. */
  function SortByStart(ps: seq<Position>): (r: seq<Position>)
    requires DistinctStarts(ps)
    ensures StrictlySorted(r)
    ensures multiset(r) == multiset(ps)
    ensures forall q :: q in r <==> q in ps
  {
    if ps == [] then []
    else
      DistinctTail(ps);
      var rest := SortByStart(ps[1..]);
      SameMembers(rest, ps[1..]);
      var r := Insert(ps[0], rest);
      assert ps == [ps[0]] + ps[1..];
      SameMembers(r, ps);
      r
  }

  // ---------------------------------------------------------------------------
  // Slicing between consecutive headings
  // ---------------------------------------------------------------------------

  /** The start of the entry after `i`, or `len` for the last entry. */
  function NextStart(ps: seq<Position>, i: nat, len: nat): nat
    requires i < |ps|
  {
    if i + 1 < |ps| then ps[i + 1].start else len
  }

  /** In the sorted list of found headings, the next entry is where `SectionEnd` cuts. */
  lemma NextSectionInOrder(f: Found, len: nat, ps: seq<Position>, i: nat)
    requires f.Within(len)
    requires StrictlySorted(ps) && Lists(ps, f)
    requires i < |ps|
    ensures SectionEnd(f, len, ps[i].start) == NextStart(ps, i, len)
  {
    var st := ps[i].start;
    var e := NextStart(ps, i, len);
    assert ps[i] in ps;
    forall k ensures e <= LaterStart(f, len, k, st) {
      match f.Get(k)
      case None =>
      case Some(t) =>
        assert Position(t, k) in ps;
        var a :| 0 <= a < |ps| && ps[a] == Position(t, k);
        if a <= i {
          assert ps[a].start <= st;
        } else {
          assert ps[i + 1].start <= t;
        }
    }
    if i + 1 < |ps| {
      var p := ps[i + 1];
      assert p in ps;
      assert LaterStart(f, len, p.key, st) == e;
    }
  }

  /** Every listed start is an index of the text. */
  predicate StartsBelow(ps: seq<Position>, len: nat) {
    forall j :: 0 <= j < |ps| ==> ps[j].start < len
  }

  /** The dictionary before any section is filled. */
  function Blank(): map<SectionKey, string> {
    map[ExecutiveSummary := "", TechnicalDocs := "", PythonCode := ""]
  }

  /** The blank dictionary has every key, each holding "". */
  lemma BlankFacts()
    ensures forall k :: k in Blank() && Blank()[k] == ""
  {
    forall k ensures k in Blank() && Blank()[k] == "" {
      match k
      case ExecutiveSummary =>
      case TechnicalDocs =>
      case PythonCode =>
    }
  }

  /** The dictionary after the slicing loop has handled the first `i` entries of `ps`:
      entry `j` stores the stripped text from the end of its heading's line to the next
      entry's start, later entries overwriting earlier ones. */
  function Fill(raw: string, ps: seq<Position>, i: nat): map<SectionKey, string>
    requires i <= |ps| && StartsBelow(ps, |raw|)
  {
    if i == 0 then Blank()
    else Fill(raw, ps, i - 1)[ps[i - 1].key := Piece(raw, ps, i - 1)]
  }

  /** One of the first `i` entries of `ps` opens section `k`. */
  predicate Opened(ps: seq<Position>, i: nat, k: SectionKey) {
    exists j :: 0 <= j < i && j < |ps| && ps[j].key == k
  }

  /** The text the slicing loop stores for entry `j` of `ps`. */
  function Piece(raw: string, ps: seq<Position>, j: nat): string
    requires j < |ps| && StartsBelow(ps, |raw|)
  {
    Cut(raw, LineEnd(raw, ps[j].start), NextStart(ps, j, |raw|))
  }

  /** When every entry's piece is the intended text `bodies` of its section, after `i`
      entries a section holds that text if one of them opened it, and "" otherwise. */
  lemma {:induction false} FillSoFar(raw: string, ps: seq<Position>, bodies: map<SectionKey, string>, i: nat)
    requires StartsBelow(ps, |raw|) && i <= |ps|
    requires forall k :: k in bodies
    requires forall j {:trigger Piece(raw, ps, j)} :: 0 <= j < |ps| ==> Piece(raw, ps, j) == bodies[ps[j].key]
    ensures forall k :: k in Fill(raw, ps, i) && Fill(raw, ps, i)[k] == if Opened(ps, i, k) then bodies[k] else ""
  {
    if i == 0 {
      BlankFacts();
    } else {
      FillSoFar(raw, ps, bodies, i - 1);
      assert Piece(raw, ps, i - 1) == bodies[ps[i - 1].key];
      OpenedStep(ps, i);
    }
  }

  /** Entry `i - 1` opens its own section and no other. */
  lemma OpenedStep(ps: seq<Position>, i: nat)
    requires 0 < i <= |ps|
    ensures Opened(ps, i, ps[i - 1].key)
    ensures forall k :: k != ps[i - 1].key ==> Opened(ps, i, k) == Opened(ps, i - 1, k)
  {
    forall k | k != ps[i - 1].key ensures Opened(ps, i, k) == Opened(ps, i - 1, k) {
      if Opened(ps, i, k) {
        var j :| 0 <= j < i && j < |ps| && ps[j].key == k;
        assert j < i - 1;
      }
    }
  }

  /** The piece cut for an entry of the sorted complete list is its section's body. */
  lemma PieceIsBody(raw: string, f: Found, ps: seq<Position>, j: nat)
    requires f.Within(|raw|) && StrictlySorted(ps) && Lists(ps, f) && StartsBelow(ps, |raw|)
    requires j < |ps|
    ensures Piece(raw, ps, j) == Body(raw, f, ps[j].key)
  {
    assert ps[j] in ps;
    NextSectionInOrder(f, |raw|, ps, j);
  }

  /** The bodies of the three sections, as a dictionary. */
  function Bodies(raw: string, f: Found): (m: map<SectionKey, string>)
    requires f.Within(|raw|)
  {
    map[ExecutiveSummary := Body(raw, f, ExecutiveSummary),
        TechnicalDocs := Body(raw, f, TechnicalDocs),
        PythonCode := Body(raw, f, PythonCode)]
  }

  /** `Bodies` holds every section's body. */
  lemma BodiesGet(raw: string, f: Found)
    requires f.Within(|raw|)
    ensures forall k :: k in Bodies(raw, f) && Bodies(raw, f)[k] == Body(raw, f, k)
  {
    forall k ensures k in Bodies(raw, f) && Bodies(raw, f)[k] == Body(raw, f, k) {
      match k
      case ExecutiveSummary =>
      case TechnicalDocs =>
      case PythonCode =>
    }
  }

  /** Every entry of a sorted complete list cuts its own section's body. */
  lemma PiecesAreBodies(raw: string, f: Found, ps: seq<Position>)
    requires f.Within(|raw|) && StrictlySorted(ps) && Lists(ps, f) && StartsBelow(ps, |raw|)
    ensures forall j {:trigger Piece(raw, ps, j)} :: 0 <= j < |ps| ==> Piece(raw, ps, j) == Bodies(raw, f)[ps[j].key]
  {
    BodiesGet(raw, f);
    forall j | 0 <= j < |ps| ensures Piece(raw, ps, j) == Bodies(raw, f)[ps[j].key] {
      PieceIsBody(raw, f, ps, j);
    }
  }

  /** In a complete list, every found section is opened by some entry. */
  lemma AllOpened(f: Found, ps: seq<Position>)
    requires Lists(ps, f)
    ensures forall k :: f.Get(k).Some? ==> Opened(ps, |ps|, k)
  {
    forall k | f.Get(k).Some? ensures Opened(ps, |ps|, k) {
      var p := Position(f.Get(k).value, k);
      assert p in ps;
      var j :| 0 <= j < |ps| && ps[j] == p;
    }
  }

  /** Filling with every entry of a sorted complete list gives every section its body,
      whatever the order of the headings in the text. */
  lemma {:induction false} FillIsBody(raw: string, f: Found, ps: seq<Position>)
    requires f.Within(|raw|) && StrictlySorted(ps) && Lists(ps, f) && StartsBelow(ps, |raw|)
    ensures forall k :: k in Fill(raw, ps, |ps|) && Fill(raw, ps, |ps|)[k] == Body(raw, f, k)
  {
    BodiesGet(raw, f);
    PiecesAreBodies(raw, f, ps);
    FillSoFar(raw, ps, Bodies(raw, f), |ps|);
    AllOpened(f, ps);
  }

  /** Patching the filled dictionary with fallbacks and the truncation flag gives `ParseSpec`. */
  lemma FilledIsSpec(raw: string, ps: seq<Position>, found: map<SectionKey, string>)
    requires StrictlySorted(ps) && Lists(ps, Locate(raw)) && StartsBelow(ps, |raw|)
    requires found == Fill(raw, ps, |ps|)
    ensures forall k :: k in found
    ensures ParseSpec(raw) == Patched(found)
  {
    FillIsBody(raw, Locate(raw), ps);
  }

  /** The result of the fallback and truncation steps applied to the dictionary `found`. */
  function Patched(found: map<SectionKey, string>): ParsedSections
    requires forall k :: k in found
  {
    var python := OrFallback(found[PythonCode], PythonCode);
    ParsedSections(
      OrFallback(found[ExecutiveSummary], ExecutiveSummary),
      OrFallback(found[TechnicalDocs], TechnicalDocs),
      python,
      Truncated(python))
  }

  /** The search loop of `parse_llm_response`: the start of each section's first heading,
      in pattern order. */
  method FindPositions(raw: string) returns (positions: seq<Position>)
    ensures positions == Collect(Locate(raw), PatternOrder)
  {
    positions := [];
    for n := 0 to |PatternOrder|
      invariant positions == Collect(Locate(raw), PatternOrder[..n])
    {
      var key := PatternOrder[n];
      assert PatternOrder[..n + 1][..n] == PatternOrder[..n];
      var m := Search(raw, key);
      LocateGet(raw, key);
      if m.Some? {
        positions := positions + [Position(m.value, key)];
      }
    }
    assert PatternOrder[..|PatternOrder|] == PatternOrder;
  }

  /** The slicing loop of `parse_llm_response`: walks the sorted positions and stores the
      stripped text between each heading's line end and the next heading. */
  method ExtractBodies(raw: string, positions: seq<Position>) returns (found: map<SectionKey, string>)
    requires StartsBelow(positions, |raw|)
    ensures found == Fill(raw, positions, |positions|)
  {
    found := Blank();
    for i := 0 to |positions|
      invariant found == Fill(raw, positions, i)
    {
      var start, key := positions[i].start, positions[i].key;
      // Find the end of the heading line
      var headingEnd := LineEnd(raw, start);
      // End is either the start of the next section or end of text
      var end := NextStart(positions, i, |raw|);
      found := found[key := Cut(raw, headingEnd, end)];
    }
  }

  /** The fallback and truncation steps of `parse_llm_response`. */
  method PatchSections(found: map<SectionKey, string>) returns (sections: ParsedSections)
    requires forall k :: k in found
    ensures sections == Patched(found)
  {
    var summary, docs, pythonOut := found[ExecutiveSummary], found[TechnicalDocs], found[PythonCode];
    // Friendly fallbacks
    if summary == "" {
      summary := Fallback(ExecutiveSummary);
    }
    if docs == "" {
      docs := Fallback(TechnicalDocs);
    }
    if pythonOut == "" {
      pythonOut := Fallback(PythonCode);
      FallbackFacts(PythonCode);
    }

    // Flag a Python section with an unclosed code block
    var truncated := false;
    if pythonOut != "" && !StartsWith(pythonOut, FallbackPrefix) {
      var openFences := Count(pythonOut, Fence);
      if openFences % 2 != 0 {
        truncated := true;
      }
    }
    TruncatedTest(pythonOut);
    sections := ParsedSections(summary, docs, pythonOut, truncated);
  }

  /** `parse_llm_response`: find, sort, slice, patch. */
  method ParseLlmResponse(raw: string) returns (sections: ParsedSections)
    ensures sections == ParseSpec(raw)
  {
    var positions := FindPositions(raw);
    LocateApart(raw);
    CollectAll(Locate(raw));

    // Sort by position in the text
    positions := SortByStart(positions);
    assert StartsBelow(positions, |raw|) by {
      forall j | 0 <= j < |positions| ensures positions[j].start < |raw| {
        assert positions[j] in positions;
      }
    }

    var found := ExtractBodies(raw, positions);
    FilledIsSpec(raw, positions, found);
    sections := PatchSections(found);
  }

  // ---------------------------------------------------------------------------
  // Properties of the result
  // ---------------------------------------------------------------------------

  /** The three fallbacks are `_No...` texts, and no two sections share one. */
  lemma {:induction false} FallbacksDistinct(k1: SectionKey, k2: SectionKey)
    ensures StartsWith(Fallback(k1), FallbackPrefix)
    ensures k1 != k2 ==> Fallback(k1) != Fallback(k2)
  {
    FallbackFacts(k1);
    assert |Fallback(ExecutiveSummary)| == 88;
    assert |Fallback(TechnicalDocs)| == 43;
    assert |Fallback(PythonCode)| == 31;
  }

  /** A non-empty cut starts and ends with a non-space. */
  lemma CutTrimmed(raw: string, a: nat, b: nat)
    requires a <= |raw| && b <= |raw|
    ensures Cut(raw, a, b) != [] ==> !IsSpace(Cut(raw, a, b)[0]) && !IsSpace(Cut(raw, a, b)[|Cut(raw, a, b)| - 1])
  {
    CutIsStrip(raw, a, b);
    StripFacts(Slice(raw, a, b));
  }

  /** What a stored section can be: section `k`'s fallback, or, only when its heading
      was `found`, a non-empty text without whitespace at either end. */
  predicate WellFormedSection(v: string, k: SectionKey, found: bool) {
    v != "" && (v == Fallback(k) || (found && !IsSpace(v[0]) && !IsSpace(v[|v| - 1])))
  }

  /** A stored section is well formed, and a section whose heading is missing holds its
      fallback. */
  lemma {:induction false} SectionShape(raw: string, f: Found, k: SectionKey)
    requires f.Within(|raw|)
    ensures WellFormedSection(Section(raw, f, k), k, f.Get(k).Some?)
    ensures f.Get(k).None? ==> Section(raw, f, k) == Fallback(k)
  {
    FallbackFacts(k);
    var body := Body(raw, f, k);
    assert Section(raw, f, k) == OrFallback(body, k);
    if f.Get(k).Some? {
      var start := f.Get(k).value;
      var a, b := LineEnd(raw, start), SectionEnd(f, |raw|, start);
      assert body == Cut(raw, a, b);
      CutTrimmed(raw, a, b);
    }
  }

  /** Each section of the result is the section `Section` describes. */
  lemma ParseSpecGet(raw: string, k: SectionKey)
    ensures ParseSpec(raw).Get(k) == Section(raw, Locate(raw), k)
  {
  }

  /** Every section of the result is non-empty. A section whose heading is missing gets
      its fallback; any other section holds either its fallback or a text without
      whitespace at either end. */
  lemma SectionsNeverEmpty(raw: string, k: SectionKey)
    ensures WellFormedSection(ParseSpec(raw).Get(k), k, Search(raw, k).Some?)
    ensures Search(raw, k).None? ==> ParseSpec(raw).Get(k) == Fallback(k)
  {
    LocateGet(raw, k);
    ParseSpecGet(raw, k);
    SectionShape(raw, Locate(raw), k);
  }

  /** The body of a heading ends no later than the next found heading and starts after the
      line break, so a later heading on the same line leaves it empty. */
  lemma NextOnSameLine(raw: string, f: Found, k1: SectionKey, k2: SectionKey)
    requires f.Within(|raw|) && f.Get(k1).Some? && f.Get(k2).Some?
    requires f.Get(k1).value < f.Get(k2).value
    requires forall t :: f.Get(k1).value <= t < f.Get(k2).value ==> raw[t] != '\n'
    ensures Body(raw, f, k1) == ""
  {
    var t1, t2 := f.Get(k1).value, f.Get(k2).value;
    LineEndFacts(raw, t1);
    var a, b := LineEnd(raw, t1), SectionEnd(f, |raw|, t1);
    assert raw[a - 1] == '\n' || a == |raw|;
    assert t2 < a;
    assert LaterStart(f, |raw|, k2, t1) == t2;
    assert b <= t2;
  }

  /** A section whose first heading is followed on the same line by another section's
      first heading holds its fallback. */
  lemma {:induction false} SameLineHeadingFallback(raw: string, k1: SectionKey, k2: SectionKey)
    requires Search(raw, k1).Some? && Search(raw, k2).Some?
    requires Search(raw, k1).value < Search(raw, k2).value
    requires forall t :: Search(raw, k1).value <= t < Search(raw, k2).value ==> raw[t] != '\n'
    ensures ParseSpec(raw).Get(k1) == Fallback(k1)
  {
    var f := Locate(raw);
    LocateGet(raw, k1);
    LocateGet(raw, k2);
    NextOnSameLine(raw, f, k1, k2);
    assert Section(raw, f, k1) == Fallback(k1);
    ParseSpecGet(raw, k1);
  }

  /** The truncation flag is raised only for a Python section that came from the reply,
      is not a `_No...` text and holds an odd number of fences; such a section is always
      flagged, and a fallback never is. */
  lemma TruncationFlag(raw: string)
    ensures var r := ParseSpec(raw);
      r.pythonCodeTruncated <==>
        && Search(raw, PythonCode).Some?
        && r.pythonCode == Body(raw, Locate(raw), PythonCode)
        && !StartsWith(r.pythonCode, FallbackPrefix)
        && Count(r.pythonCode, Fence) % 2 == 1
    ensures ParseSpec(raw).pythonCode == Fallback(PythonCode) ==> !ParseSpec(raw).pythonCodeTruncated
  {
    var f := Locate(raw);
    LocateGet(raw, PythonCode);
    FallbackFacts(PythonCode);
  }

  /** A copy of `w` in `s` at `j` matches `w`. */
  lemma {:induction false} WordCopied(s: string, j: nat, w: string)
    requires j + |w| <= |s| && s[j..j + |w|] == w
    ensures WordAt(s, j, w)
    decreases |w|
  {
    if w != [] {
      assert s[j] == w[0];
      assert s[j + 1..j + 1 + |w[1..]|] == w[1..];
      WordCopied(s, j + 1, w[1..]);
    }
  }

  /** `## W1 W2` spelled out at `i` satisfies the matcher's conditions for the words
      `w1` and `w2` when both start with a letter. */
  lemma SpelledWordsMatch(s: string, i: nat, w1: string, w2: string)
    requires w1 != [] && w2 != [] && 'A' <= w1[0] <= 'Z' && 'A' <= w2[0] <= 'Z'
    requires i + 4 + |w1| + |w2| <= |s|
    requires s[i] == '#' && s[i + 1] == '#' && s[i + 2] == ' ' && s[i + 3 + |w1|] == ' '
    requires s[i + 3..i + 3 + |w1|] == w1 && s[i + 4 + |w1|..i + 4 + |w1| + |w2|] == w2
    ensures SkipSpace(s, i + 2) == i + 3 && WordAt(s, i + 3, w1)
    ensures SkipSpace(s, i + 3 + |w1|) == i + 4 + |w1| && WordAt(s, i + 4 + |w1|, w2)
  {
    var m := i + 3 + |w1|;
    WordCopied(s, i + 3, w1);
    WordCopied(s, m + 1, w2);
    assert s[i + 3] == s[i + 3..m][0] == w1[0];
    assert s[m + 1] == s[m + 1..m + 1 + |w2|][0] == w2[0];
    LetterIsNotSpace(s[i + 3], w1[0]);
    SkipOneSpace(s, i + 2);
    LetterIsNotSpace(s[m + 1], w2[0]);
    SkipOneSpace(s, m);
  }

  /** How a spelled heading is laid out: `##`, a space, the first word, a space, the second word. */
  lemma SpelledParts(w1: string, w2: string)
    ensures var h := "## " + w1 + " " + w2;
      && |h| == 4 + |w1| + |w2|
      && h[0] == '#' && h[1] == '#' && h[2] == ' ' && h[3 + |w1|] == ' '
      && h[3..3 + |w1|] == w1 && h[4 + |w1|..] == w2
  {
    var h := "## " + w1 + " " + w2;
    assert h[3..3 + |w1|] == w1;
    assert h[4 + |w1|..] == w2;
  }

  /** Indexing into the middle part of `x + h + y`. */
  lemma InfixIndex(x: string, h: string, y: string, t: nat)
    requires t < |h|
    ensures (x + h + y)[|x| + t] == h[t]
  {
  }

  /** Slicing within the middle part of `x + h + y`. */
  lemma InfixSlice(x: string, h: string, y: string, a: nat, b: nat)
    requires a <= b <= |h|
    ensures (x + h + y)[|x| + a..|x| + b] == h[a..b]
  {
    var s := x + h + y;
    assert s[|x|..|x| + |h|] == h;
    assert s[|x| + a..|x| + b] == s[|x|..|x| + |h|][a..b];
  }

  /** The matcher's conditions, met one by one, make a heading match. */
  lemma HeadingFromParts(s: string, i: nat, k: SectionKey)
    requires i + 2 <= |s| && s[i] == '#' && s[i + 1] == '#'
    requires SkipSpace(s, i + 2) == i + 3 && WordAt(s, i + 3, FirstWord(k))
    requires i + 4 + |FirstWord(k)| <= |s|
    requires SkipSpace(s, i + 3 + |FirstWord(k)|) == i + 4 + |FirstWord(k)|
    requires WordAt(s, i + 4 + |FirstWord(k)|, SecondWord(k))
    ensures HeadingAt(s, i, k)
  {
  }

  /** `## W1 W2` spelled out anywhere meets the matcher's conditions for `W1` and `W2`. */
  lemma {:induction false} SpelledHeadingIn(x: string, w1: string, w2: string, y: string)
    requires w1 != [] && w2 != [] && 'A' <= w1[0] <= 'Z' && 'A' <= w2[0] <= 'Z'
    ensures var s, i := x + ("## " + w1 + " " + w2) + y, |x|;
      && i + 4 + |w1| + |w2| <= |s| && s[i] == '#' && s[i + 1] == '#'
      && SkipSpace(s, i + 2) == i + 3 && WordAt(s, i + 3, w1)
      && SkipSpace(s, i + 3 + |w1|) == i + 4 + |w1| && WordAt(s, i + 4 + |w1|, w2)
  {
    var h := "## " + w1 + " " + w2;
    var s := x + h + y;
    var i := |x|;
    SpelledParts(w1, w2);
    InfixIndex(x, h, y, 0);
    InfixIndex(x, h, y, 1);
    InfixIndex(x, h, y, 2);
    InfixIndex(x, h, y, 3 + |w1|);
    InfixSlice(x, h, y, 3, 3 + |w1|);
    InfixSlice(x, h, y, 4 + |w1|, |h|);
    SpelledWordsMatch(s, i, w1, w2);
  }

  /** The heading text of section `k` is matched by the parser's pattern for `k`,
      wherever it appears. */
  lemma HeadingTextMatches(x: string, k: SectionKey, y: string)
    ensures HeadingAt(x + HeadingText(k) + y, |x|, k)
  {
    WordsStartWithLetters(k);
    SpelledHeadingIn(x, FirstWord(k), SecondWord(k), y);
    HeadingFromParts(x + HeadingText(k) + y, |x|, k);
  }

  /** A text holding the heading of section `k` has that section found, no later than
      the heading. */
  lemma HeadingTextFound(x: string, k: SectionKey, y: string)
    ensures Search(x + HeadingText(k) + y, k).Some?
    ensures Search(x + HeadingText(k) + y, k).value <= |x|
  {
    HeadingTextMatches(x, k, y);
    SearchLeftmost(x + HeadingText(k) + y, k);
  }
}
