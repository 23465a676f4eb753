/**
 * The inline citation rewriter: it splices markdown references `[n](uri)` into
 * a chunk of answer text after the ranges that grounding metadata says a web
 * source supports, plus the read-only views it offers over that metadata.
 *
 * Offsets in the metadata are in the coordinates of the ORIGINAL chunk, while
 * the text grows with every insertion; a running `offset` makes up the
 * difference. Positions follow JavaScript: `charAt` outside the string gives
 * no character, and `slice` counts a negative position from the end.
 */
module CitationsProcessor {
  import opened Wrappers
  import opened Strings
  import opened NativeToolsTypes

  // ---------------------------------------------------------------------------
  // Safe insertion points
  // ---------------------------------------------------------------------------

  /** The characters the regular expression `\s` matches. */
  predicate IsWhitespace(c: char) {
    c == ' ' || c == '\t' || c == '\n' || c == '\r' || c == '\U{0B}' || c == '\U{0C}'
    || c == '\U{A0}' || c == '\U{1680}' || ('\U{2000}' <= c <= '\U{200A}')
    || c == '\U{2028}' || c == '\U{2029}' || c == '\U{202F}' || c == '\U{205F}'
    || c == '\U{3000}' || c == '\U{FEFF}'
  }

  /** A character before which a citation may go: whitespace or one of `.,!?;:`. */
  predicate IsBreakChar(c: char) {
    IsWhitespace(c) || c == '.' || c == ',' || c == '!' || c == '?' || c == ';' || c == ':'
  }

  /** Position `i` holds a break character (`charAt` outside the text gives none). */
  predicate BreakAt(text: string, i: int) {
    0 <= i < |text| && IsBreakChar(text[i])
  }

  /** The first break at or after `i`, if any. */
  function FirstBreakFrom(text: string, i: int): (r: Option<int>)
    ensures r.Some? ==> i <= r.value < |text| && BreakAt(text, r.value)
    ensures r.Some? ==> forall j :: i <= j < r.value ==> !BreakAt(text, j)
    ensures r.None? ==> forall j :: i <= j < |text| ==> !BreakAt(text, j)
    decreases |text| - i
  {
    if i >= |text| then None
    else if BreakAt(text, i) then Some(i)
    else FirstBreakFrom(text, i + 1)
  }

  /**
   * Where a citation aimed at `index` goes: the end of the text when `index` is
   * at or past it; else the first break at or after `index`; else, when there
   * is none, `index` itself (which then falls inside a word).
   */
  function SafeInsertionPoint(text: string, index: int): (p: int)
    ensures index >= |text| ==> p == |text|
    ensures index < |text| && (exists j :: index <= j < |text| && BreakAt(text, j)) ==>
              index <= p < |text| && BreakAt(text, p) && forall j :: index <= j < p ==> !BreakAt(text, j)
    ensures index < |text| && (forall j :: index <= j < |text| ==> !BreakAt(text, j)) ==> p == index
    ensures index >= 0 ==> 0 <= p <= |text|
  {
    if index >= |text| then |text|
    else match FirstBreakFrom(text, index)
      case Some(q) => q
      case None => index
  }

  /** `findSafeInsertionPoint`: a scan with early returns. */
  method FindSafeInsertionPoint(text: string, index: int) returns (p: int)
    ensures p == SafeInsertionPoint(text, index)
    ensures index >= 0 ==> 0 <= p <= |text|
  {
    if index >= |text| {
      return |text|;
    }
    if BreakAt(text, index) {
      return index;
    }
    var i := index;
    while i < |text|
      invariant index <= i <= |text|
      invariant forall j :: index <= j < i ==> !BreakAt(text, j)
    {
      if BreakAt(text, i) {
        return i;
      }
      i := i + 1;
    }
    return index;
  }

  // ---------------------------------------------------------------------------
  // Splicing
  // ---------------------------------------------------------------------------

  /** The position JavaScript's `slice` makes of `k` in a string of length `len`. */
  function SlicePos(k: int, len: nat): (r: nat)
    ensures r <= len
    ensures 0 <= k <= len ==> r == k
    ensures k > len ==> r == len
    ensures k < 0 ==> r == if len + k < 0 then 0 else len + k
  {
    if k < 0 then (if len + k < 0 then 0 else len + k)
    else if k > len then len
    else k
  }

  /** `s.slice(0, at) + ins + s.slice(at)`. */
  function Splice(s: string, at: int, ins: string): (r: string)
    ensures |r| == |s| + |ins|
  {
    var k := SlicePos(at, |s|);
    s[..k] + ins + s[k..]
  }

  /** A splice keeps what was before and after the splice point and puts `ins` between. */
  lemma SpliceKeepsContext(s: string, at: int, ins: string)
    ensures var k := SlicePos(at, |s|); var r := Splice(s, at, ins);
      r[..k] == s[..k] && r[k..k + |ins|] == ins && r[k + |ins|..] == s[k..]
  {
  }

  // ---------------------------------------------------------------------------
  // Citation markers
  // ---------------------------------------------------------------------------

  /** `groundingChunks[i]?.web?.uri` when it is truthy (present and non-empty). */
  function ChunkUri(chunks: seq<GroundingChunk>, i: int): (r: Option<string>)
    ensures r.Some? ==> 0 <= i < |chunks| && chunks[i].web.Some? && chunks[i].web.value.uri == r && r.value != ""
    ensures (0 <= i < |chunks| && chunks[i].web.Some? && chunks[i].web.value.uri.Some?
             && chunks[i].web.value.uri.value != "") ==> r == chunks[i].web.value.uri
  {
    if 0 <= i < |chunks| && chunks[i].web.Some? && chunks[i].web.value.uri.Some?
       && chunks[i].web.value.uri.value != ""
    then chunks[i].web.value.uri
    else None
  }

  /** The reference `[i+1](uri)` for chunk index `i`. */
  function Link(i: nat, uri: string): (r: string)
    ensures |r| >= 5 && r[0] == '['
  {
    "[" + NatToDecimal(i + 1) + "](" + uri + ")"
  }

  /**
   * A reference reads back as `[`, the decimal digits of `i + 1`, `](`, the
   * URI and `)`: the number shown is the 1-based chunk position.
   */
  lemma LinkReadBack(i: nat, uri: string)
    ensures var n := |NatToDecimal(i + 1)|; var r := Link(i, uri);
      && |r| == n + |uri| + 4
      && r[..1] == "["
      && r[1..1 + n] == NatToDecimal(i + 1)
      && DecimalValue(r[1..1 + n]) == i + 1
      && r[1 + n..3 + n] == "]("
      && r[3 + n..|r| - 1] == uri
      && r[|r| - 1] == ')'
  {
    var digits := NatToDecimal(i + 1);
    var n := |digits|;
    var r := Link(i, uri);
    assert r == "[" + digits + "](" + uri + ")";
    assert r[1..1 + n] == digits;
    assert r[1 + n..3 + n] == "](";
    assert r[3 + n..|r| - 1] == uri;
    DecimalRoundTrip(i + 1);
  }

  /** The references for `indices`, in their order, dropping indices without a URI. */
  function CitationLinks(chunks: seq<GroundingChunk>, indices: seq<int>): (links: seq<string>)
    ensures |links| <= |indices|
    ensures forall k :: 0 <= k < |links| ==> links[k] != ""
    ensures links == [] <==> forall k :: 0 <= k < |indices| ==> ChunkUri(chunks, indices[k]).None?
  {
    if indices == [] then []
    else
      var here := match ChunkUri(chunks, indices[0])
        case Some(uri) => [Link(indices[0], uri)]
        case None => [];
      here + CitationLinks(chunks, indices[1..])
  }

  /** Links for a concatenation of index lists are the concatenation of their links. */
  lemma {:induction false} CitationLinksAppend(chunks: seq<GroundingChunk>, a: seq<int>, b: seq<int>)
    ensures CitationLinks(chunks, a + b) == CitationLinks(chunks, a) + CitationLinks(chunks, b)
  {
    if a == [] {
      assert a + b == b;
    } else {
      assert (a + b)[0] == a[0];
      assert (a + b)[1..] == a[1..] + b;
      CitationLinksAppend(chunks, a[1..], b);
    }
  }

  /** One index contributes its reference exactly when its chunk has a URI. */
  lemma CitationLinksSingle(chunks: seq<GroundingChunk>, i: int)
    ensures CitationLinks(chunks, [i]) ==
      if ChunkUri(chunks, i).Some? then [Link(i, ChunkUri(chunks, i).value)] else []
  {
    assert [i][1..] == [];
  }

  // ---------------------------------------------------------------------------
  // Which support spans are used
  // ---------------------------------------------------------------------------

  /** The part of an accepted support span that the insertion uses. */
  datatype Span = Span(end: int, indices: seq<int>)

  /**
   * A support span the loop keeps, or None for one it skips: it is skipped when
   * its start or end is missing, it cites no index, its start is negative, or
   * its end lies past the original text. A negative end is NOT rejected.
   */
  function AcceptedSpan(original: string, s: GroundingSupport): (r: Option<Span>)
    ensures r.Some? <==>
      && s.segment.Some?
      && s.segment.value.startIndex.Some? && s.segment.value.endIndex.Some?
      && s.groundingChunkIndices.Some? && |s.groundingChunkIndices.value| > 0
      && s.segment.value.startIndex.value >= 0
      && s.segment.value.endIndex.value <= |original|
    ensures r.Some? ==>
      r.value.end == s.segment.value.endIndex.value && r.value.indices == s.groundingChunkIndices.value
  {
    if s.segment.None? then None
    else
      var seg := s.segment.value;
      if seg.startIndex.None? || seg.endIndex.None? then None
      else if s.groundingChunkIndices.None? || |s.groundingChunkIndices.value| == 0 then None
      else if seg.startIndex.value < 0 then None
      else if seg.endIndex.value > |original| then None
      else Some(Span(seg.endIndex.value, s.groundingChunkIndices.value))
  }

  /** The citation string a support span inserts: its links joined by `", "`, or "" when skipped. */
  function Inserted(original: string, chunks: seq<GroundingChunk>, s: GroundingSupport): string
  {
    match AcceptedSpan(original, s)
    case None => ""
    case Some(span) => Join(CitationLinks(chunks, span.indices), ", ")
  }

  /** Nothing is inserted exactly when the span is skipped or none of its indices has a URI. */
  lemma InsertedEmptyIff(original: string, chunks: seq<GroundingChunk>, s: GroundingSupport)
    ensures Inserted(original, chunks, s) == "" <==>
      AcceptedSpan(original, s).None? || CitationLinks(chunks, AcceptedSpan(original, s).value.indices) == []
  {
    if AcceptedSpan(original, s).Some? {
      JoinEmptyIff(CitationLinks(chunks, AcceptedSpan(original, s).value.indices), ", ");
    }
  }

  // ---------------------------------------------------------------------------
  // Sorting the supports by start offset
  // ---------------------------------------------------------------------------

  /** The sort key: `segment?.startIndex ?? 0`. */
  function StartKey(s: GroundingSupport): int {
    if s.segment.Some? then s.segment.value.startIndex.GetOr(0) else 0
  }

  ghost predicate SortedByStart(ss: seq<GroundingSupport>) {
    forall i, j :: 0 <= i < j < |ss| ==> StartKey(ss[i]) <= StartKey(ss[j])
  }

  /** The supports with start key `k`, in their order. */
  function WithKey(ss: seq<GroundingSupport>, k: int): seq<GroundingSupport> {
    if ss == [] then []
    else (if StartKey(ss[0]) == k then [ss[0]] else []) + WithKey(ss[1..], k)
  }

  /** Puts `x` before the first support whose key is not smaller. */
  function InsertByStart(x: GroundingSupport, sorted: seq<GroundingSupport>): (r: seq<GroundingSupport>)
    ensures |r| == |sorted| + 1
  {
    if sorted == [] then [x]
    else if StartKey(x) <= StartKey(sorted[0]) then [x] + sorted
    else [sorted[0]] + InsertByStart(x, sorted[1..])
  }

  /** A stable sort of the supports by start key, as `Array.prototype.sort` with the key comparator. */
  function SortByStart(ss: seq<GroundingSupport>): (r: seq<GroundingSupport>)
    ensures |r| == |ss|
  {
    if ss == [] then [] else InsertByStart(ss[0], SortByStart(ss[1..]))
  }

  lemma {:induction false} InsertByStartPermutes(x: GroundingSupport, t: seq<GroundingSupport>)
    ensures multiset(InsertByStart(x, t)) == multiset(t) + multiset{x}
  {
    if t != [] && StartKey(x) > StartKey(t[0]) {
      InsertByStartPermutes(x, t[1..]);
      assert t == [t[0]] + t[1..];
    }
  }

  lemma {:induction false} InsertByStartSorted(x: GroundingSupport, t: seq<GroundingSupport>)
    requires SortedByStart(t)
    ensures SortedByStart(InsertByStart(x, t))
  {
    if t != [] && StartKey(x) > StartKey(t[0]) {
      var rest := InsertByStart(x, t[1..]);
      InsertByStartSorted(x, t[1..]);
      InsertByStartPermutes(x, t[1..]);
      forall i | 0 <= i < |rest| ensures StartKey(t[0]) <= StartKey(rest[i]) {
        assert rest[i] in multiset(rest);
        if rest[i] != x {
          assert rest[i] in multiset(t[1..]);
          var j :| 0 <= j < |t[1..]| && t[1..][j] == rest[i];
          assert t[j + 1] == rest[i];
        }
      }
    }
  }

  lemma WithKeyCons(x: GroundingSupport, t: seq<GroundingSupport>, k: int)
    ensures WithKey([x] + t, k) == (if StartKey(x) == k then [x] else []) + WithKey(t, k)
  {
    assert ([x] + t)[0] == x && ([x] + t)[1..] == t;
  }

  lemma {:induction false} InsertByStartStable(x: GroundingSupport, t: seq<GroundingSupport>, k: int)
    ensures WithKey(InsertByStart(x, t), k) == (if StartKey(x) == k then [x] else []) + WithKey(t, k)
  {
    if t == [] {
      WithKeyCons(x, [], k);
      assert [x] + [] == [x];
    } else if StartKey(x) <= StartKey(t[0]) {
      WithKeyCons(x, t, k);
    } else {
      var rest := InsertByStart(x, t[1..]);
      assert InsertByStart(x, t) == [t[0]] + rest;
      InsertByStartStable(x, t[1..], k);
      WithKeyCons(t[0], rest, k);
      WithKeyCons(t[0], t[1..], k);
      assert [t[0]] + t[1..] == t;
      if StartKey(x) == k {
        assert StartKey(t[0]) != k;
        assert WithKey(InsertByStart(x, t), k) == [x] + WithKey(t[1..], k);
      } else {
        assert WithKey(InsertByStart(x, t), k) == WithKey(t, k);
      }
    }
  }

  /** The sorted copy is ordered by start, is a permutation, and keeps equal keys in their order. */
  lemma {:induction false} SortByStartCorrect(ss: seq<GroundingSupport>)
    ensures SortedByStart(SortByStart(ss))
    ensures multiset(SortByStart(ss)) == multiset(ss)
    ensures forall k :: WithKey(SortByStart(ss), k) == WithKey(ss, k)
  {
    if ss != [] {
      SortByStartCorrect(ss[1..]);
      InsertByStartSorted(ss[0], SortByStart(ss[1..]));
      InsertByStartPermutes(ss[0], SortByStart(ss[1..]));
      forall k ensures WithKey(SortByStart(ss), k) == WithKey(ss, k) {
        InsertByStartStable(ss[0], SortByStart(ss[1..]), k);
      }
      assert ss == [ss[0]] + ss[1..];
    }
  }

  // ---------------------------------------------------------------------------
  // The rewriting loop, as a specification
  // ---------------------------------------------------------------------------

  /** The working text and the total length inserted into it so far. */
  datatype Progress = Progress(text: string, offset: int)

  /** One iteration of the loop over the sorted supports. */
  function ApplySupport(original: string, chunks: seq<GroundingChunk>, p: Progress, s: GroundingSupport): (r: Progress)
    ensures r.offset - p.offset == |r.text| - |p.text| >= 0
    ensures r != p ==> r.offset > p.offset
  {
    match AcceptedSpan(original, s)
    case None => p
    case Some(span) =>
      var links := CitationLinks(chunks, span.indices);
      if |links| == 0 then p
      else
        JoinEmptyIff(links, ", ");
        var citation := Join(links, ", ");
        var at := SafeInsertionPoint(p.text, span.end + p.offset);
        Progress(Splice(p.text, at, citation), p.offset + |citation|)
  }

  /** The loop run over `ss` from the untouched original text. */
  function ApplyAll(original: string, chunks: seq<GroundingChunk>, ss: seq<GroundingSupport>): Progress
  {
    if ss == [] then Progress(original, 0)
    else ApplySupport(original, chunks, ApplyAll(original, chunks, ss[..|ss| - 1]), ss[|ss| - 1])
  }

  /** The total length of the citation strings the supports `ss` insert. */
  function InsertedLength(original: string, chunks: seq<GroundingChunk>, ss: seq<GroundingSupport>): nat
  {
    if ss == [] then 0
    else InsertedLength(original, chunks, ss[..|ss| - 1]) + |Inserted(original, chunks, ss[|ss| - 1])|
  }

  /** The splice position of one iteration (0 when nothing is inserted). */
  function InsertionPos(original: string, chunks: seq<GroundingChunk>, p: Progress, s: GroundingSupport): nat
  {
    match AcceptedSpan(original, s)
    case None => 0
    case Some(span) =>
      if CitationLinks(chunks, span.indices) == [] then 0
      else SlicePos(SafeInsertionPoint(p.text, span.end + p.offset), |p.text|)
  }

  /**
   * One iteration inserts exactly the span's citation string, at one position,
   * keeping the text before and after it, and adds its length to the offset.
   */
  lemma ApplySupportSplices(original: string, chunks: seq<GroundingChunk>, p: Progress, s: GroundingSupport)
    ensures var k := InsertionPos(original, chunks, p, s); var q := ApplySupport(original, chunks, p, s);
      && k <= |p.text|
      && q.text == p.text[..k] + Inserted(original, chunks, s) + p.text[k..]
      && q.offset == p.offset + |Inserted(original, chunks, s)|
  {
    var k := InsertionPos(original, chunks, p, s);
    match AcceptedSpan(original, s)
    case None =>
      assert p.text == p.text[..0] + "" + p.text[0..];
    case Some(span) =>
      if CitationLinks(chunks, span.indices) == [] {
        assert p.text == p.text[..0] + "" + p.text[0..];
      }
  }

  /**
   * The loop invariant: the offset is the total length inserted so far, and the
   * working text is the original grown by exactly that much.
   */
  lemma {:induction false} OffsetIsInsertedLength(original: string, chunks: seq<GroundingChunk>, ss: seq<GroundingSupport>)
    ensures ApplyAll(original, chunks, ss).offset == InsertedLength(original, chunks, ss)
    ensures |ApplyAll(original, chunks, ss).text| == |original| + InsertedLength(original, chunks, ss)
  {
    if ss != [] {
      var prefix := ss[..|ss| - 1];
      OffsetIsInsertedLength(original, chunks, prefix);
      ApplySupportSplices(original, chunks, ApplyAll(original, chunks, prefix), ss[|ss| - 1]);
    }
  }

  /** Supports that all insert nothing leave the text as it was. */
  lemma {:induction false} NothingInsertedKeepsText(original: string, chunks: seq<GroundingChunk>, ss: seq<GroundingSupport>)
    requires forall k :: 0 <= k < |ss| ==> Inserted(original, chunks, ss[k]) == ""
    ensures ApplyAll(original, chunks, ss) == Progress(original, 0)
  {
    if ss != [] {
      var prefix := ss[..|ss| - 1];
      NothingInsertedKeepsText(original, chunks, prefix);
      ApplySupportSplices(original, chunks, ApplyAll(original, chunks, prefix), ss[|ss| - 1]);
    }
  }

  // ---------------------------------------------------------------------------
  // processChunk
  // ---------------------------------------------------------------------------

  /** Metadata from which citations can be built: present, with supports and chunks. */
  predicate HasCitationData(metadata: Option<GroundingMetadata>) {
    metadata.Some? && metadata.value.groundingSupports.Some? && metadata.value.groundingChunks.Some?
  }

  /** What `processChunk` returns, with inline citations enabled or not. */
  function Annotate(enabled: bool, textChunk: string, metadata: Option<GroundingMetadata>): (r: string)
    ensures !enabled ==> r == textChunk
    ensures !HasCitationData(metadata) ==> r == textChunk
  {
    if !enabled || !HasCitationData(metadata) then textChunk
    else
      var md := metadata.value;
      ApplyAll(textChunk, md.groundingChunks.value, SortByStart(md.groundingSupports.value)).text
  }

  /** The growth `processChunk` causes: the total length of the citation strings it inserts. */
  lemma AnnotateLength(enabled: bool, textChunk: string, metadata: Option<GroundingMetadata>)
    requires enabled && HasCitationData(metadata)
    ensures |Annotate(enabled, textChunk, metadata)| == |textChunk| +
      InsertedLength(textChunk, metadata.value.groundingChunks.value, SortByStart(metadata.value.groundingSupports.value))
  {
    var md := metadata.value;
    OffsetIsInsertedLength(textChunk, md.groundingChunks.value, SortByStart(md.groundingSupports.value));
  }

  /** The loop's specification advances by one support per iteration. */
  lemma ApplyAllStep(original: string, chunks: seq<GroundingChunk>, ss: seq<GroundingSupport>, i: nat)
    requires i < |ss|
    ensures ApplyAll(original, chunks, ss[..i + 1]) == ApplySupport(original, chunks, ApplyAll(original, chunks, ss[..i]), ss[i])
  {
    assert ss[..i + 1][..i] == ss[..i];
  }

  /**
   * The body of `processChunk`'s loop for one support: skip it, or splice its
   * joined links at the safe point after `endIndex + offset` and grow `offset`.
   */
  method CiteSupport(textChunk: string, chunks: seq<GroundingChunk>, cited: string, offset: int, support: GroundingSupport)
    returns (cited': string, offset': int)
    ensures Progress(cited', offset') == ApplySupport(textChunk, chunks, Progress(cited, offset), support)
  {
    cited', offset' := cited, offset;
    var span := AcceptedSpan(textChunk, support);
    if span.Some? {
      var citationLinks := CitationLinks(chunks, span.value.indices);
      if |citationLinks| > 0 {
        var citationString := Join(citationLinks, ", ");
        var insertionIndex := span.value.end + offset;
        var safeInsertionIndex := FindSafeInsertionPoint(cited, insertionIndex);
        cited' := Splice(cited, safeInsertionIndex, citationString);
        offset' := offset + |citationString|;
      }
    }
  }

  /** `processChunk`: splices the citations into the text, one sorted support at a time. */
  method ProcessChunk(enabled: bool, textChunk: string, metadata: Option<GroundingMetadata>) returns (cited: string)
    ensures cited == Annotate(enabled, textChunk, metadata)
  {
    if !enabled {
      return textChunk;
    }
    cited := textChunk;
    var offset := 0;
    if metadata.Some? && metadata.value.groundingSupports.Some? && metadata.value.groundingChunks.Some? {
      var chunks := metadata.value.groundingChunks.value;
      var sortedSupports := SortByStart(metadata.value.groundingSupports.value);
      var i := 0;
      while i < |sortedSupports|
        invariant 0 <= i <= |sortedSupports|
        invariant Progress(cited, offset) == ApplyAll(textChunk, chunks, sortedSupports[..i])
      {
        cited, offset := CiteSupport(textChunk, chunks, cited, offset, sortedSupports[i]);
        ApplyAllStep(textChunk, chunks, sortedSupports, i);
        i := i + 1;
      }
      assert sortedSupports[..i] == sortedSupports;
    }
  }

  // ---------------------------------------------------------------------------
  // Read-only views of the metadata
  // ---------------------------------------------------------------------------

  /** `extractSearchQueries`: the queries, or none when the field is missing. */
  function ExtractSearchQueries(md: GroundingMetadata): (r: seq<string>)
    ensures md.webSearchQueries.Some? ==> r == md.webSearchQueries.value
    ensures md.webSearchQueries.None? ==> r == []
  {
    md.webSearchQueries.GetOr([])
  }

  /**
   * The numbered sources of `chunks`, the first numbered `firstId`; None when a
   * chunk has no `web` part (reading its title throws).
   */
  function SourcesFrom(chunks: seq<GroundingChunk>, firstId: nat): (r: Option<seq<CitationSource>>)
    ensures r.Some? <==> forall k :: 0 <= k < |chunks| ==> chunks[k].web.Some?
    ensures r.Some? ==> |r.value| == |chunks|
    ensures r.Some? ==> forall k :: 0 <= k < |chunks| ==>
      r.value[k] == CitationSource(firstId + k, chunks[k].web.value.title, chunks[k].web.value.uri)
  {
    if chunks == [] then Some([])
    else if chunks[0].web.None? then None
    else match SourcesFrom(chunks[1..], firstId + 1)
      case None => None
      case Some(rest) =>
        Some([CitationSource(firstId, chunks[0].web.value.title, chunks[0].web.value.uri)] + rest)
  }

  /**
   * `extractSourceList`: source `k` has id `k+1` and chunk `k`'s title and URI.
   * None where the source throws: chunks missing, or a chunk without `web`.
   */
  function ExtractSourceList(md: GroundingMetadata): (r: Option<seq<CitationSource>>)
    ensures r.Some? <==>
      (md.groundingChunks.Some? &&
       forall k :: 0 <= k < |md.groundingChunks.value| ==> md.groundingChunks.value[k].web.Some?)
    ensures r.Some? ==> |r.value| == |md.groundingChunks.value|
    ensures r.Some? ==> forall k :: 0 <= k < |r.value| ==>
      r.value[k].id == k + 1 &&
      r.value[k].title == md.groundingChunks.value[k].web.value.title &&
      r.value[k].uri == md.groundingChunks.value[k].web.value.uri
  {
    if md.groundingChunks.None? then None else SourcesFrom(md.groundingChunks.value, 1)
  }

  /** `getSearchEntryPoint`: the rendered markup, or none when missing or empty. */
  function GetSearchEntryPoint(md: GroundingMetadata): (r: Option<string>)
    ensures r.Some? ==> r.value != "" && md.searchEntryPoint == Some(SearchEntryPoint(r.value))
    ensures r.None? ==> md.searchEntryPoint.None? || md.searchEntryPoint.value.renderedContent == ""
  {
    if md.searchEntryPoint.Some? && md.searchEntryPoint.value.renderedContent != ""
    then Some(md.searchEntryPoint.value.renderedContent)
    else None
  }

  datatype GroundingSummary = GroundingSummary(
    queryCount: nat,
    sourceCount: nat,
    supportCount: nat,
    queries: seq<string>,
    sources: seq<CitationSource>)

  /**
   * `createGroundingSummary`: counts are list lengths, 0 for a missing list.
   * It throws (None) exactly when `extractSourceList` does, so a missing chunk
   * list never yields a summary with `sourceCount` 0.
   */
  function CreateGroundingSummary(md: GroundingMetadata): (r: Option<GroundingSummary>)
    ensures r.Some? <==> ExtractSourceList(md).Some?
    ensures r.Some? ==>
      && r.value.queryCount == |r.value.queries|
      && r.value.queries == ExtractSearchQueries(md)
      && r.value.sourceCount == |r.value.sources| == |md.groundingChunks.value|
      && r.value.sources == ExtractSourceList(md).value
      && r.value.supportCount == (if md.groundingSupports.Some? then |md.groundingSupports.value| else 0)
  {
    match ExtractSourceList(md)
    case None => None
    case Some(sources) =>
      Some(GroundingSummary(
        if md.webSearchQueries.Some? then |md.webSearchQueries.value| else 0,
        if md.groundingChunks.Some? then |md.groundingChunks.value| else 0,
        if md.groundingSupports.Some? then |md.groundingSupports.value| else 0,
        ExtractSearchQueries(md),
        sources))
  }
}

/**
 * Worked inputs for the citation rewriter, including the two places where it
 * splits a word. Each example takes its text, chunks and supports as
 * parameters pinned by `requires` rather than writing the literals into the
 * calls: a call whose arguments are all literals is unfolded eagerly by the
 * verifier through the whole rewriting pipeline, which is far more costly than
 * the step lemmas `OneLinkStep` and `OneReference` the proofs go through.
 */
module CitationsExamples {
  import opened Wrappers
  import opened NativeToolsTypes
  import opened CitationsProcessor

  function Source(uri: string): GroundingChunk {
    GroundingChunk(Some(WebSource(Some(uri), "")))
  }

  function Support(start: int, end: int, indices: seq<int>): GroundingSupport {
    GroundingSupport(Some(Segment(Some(start), Some(end), "")), Some(indices))
  }

  function Metadata(chunks: seq<GroundingChunk>, supports: seq<GroundingSupport>): Option<GroundingMetadata> {
    Some(GroundingMetadata(None, None, Some(chunks), Some(supports)))
  }

  /** The references `[1](uri)` and `[2](uri)`, spelled out. */
  lemma FirstLinks(uri: string)
    ensures Link(0, uri) == "[1](" + uri + ")"
    ensures Link(1, uri) == "[2](" + uri + ")"
  {
    assert "0123456789"[1] == '1' && "0123456789"[2] == '2';
    assert Strings.NatToDecimal(1) == "1";
    assert Strings.NatToDecimal(2) == "2";
  }

  lemma SortOne(s: GroundingSupport)
    ensures SortByStart([s]) == [s]
  {
    assert [s][1..] == [];
    assert SortByStart([]) == [];
  }

  /** With a single support, `processChunk` is one pass of the loop over the original text. */
  lemma AnnotateOne(text: string, chunks: seq<GroundingChunk>, s: GroundingSupport)
    ensures Annotate(true, text, Metadata(chunks, [s])) == ApplySupport(text, chunks, Progress(text, 0), s).text
  {
    SortOne(s);
    assert [s][..0] == [];
    assert ApplyAll(text, chunks, [s]) == ApplySupport(text, chunks, ApplyAll(text, chunks, []), s);
  }

  /** A pass whose support names one chunk with a URI splices that chunk's single reference at the safe point. */
  lemma OneLinkStep(original: string, chunks: seq<GroundingChunk>, p: Progress, s: GroundingSupport,
                    end: int, i: nat, uri: string, at: int)
    requires AcceptedSpan(original, s) == Some(Span(end, [i]))
    requires ChunkUri(chunks, i) == Some(uri)
    requires SafeInsertionPoint(p.text, end + p.offset) == at
    ensures ApplySupport(original, chunks, p, s) == Progress(Splice(p.text, at, Link(i, uri)), p.offset + |Link(i, uri)|)
  {
    var link := Link(i, uri);
    assert CitationLinks(chunks, [i]) == [link] by {
      CitationLinksSingle(chunks, i);
    }
    assert Strings.Join([link], ", ") == link;
  }

  lemma SpliceAtEnd(text: string, ins: string)
    ensures Splice(text, |text|, ins) == text + ins
  {
    assert text[..|text|] == text && text[|text|..] == [];
  }

  /**
   * A chunk with one support that names chunk 0 with a URI gets that one
   * reference, spliced at the safe point found from the span's end.
   */
  lemma OneReference(text: string, chunks: seq<GroundingChunk>, s: GroundingSupport,
                     end: int, uri: string, at: int, expected: string)
    requires AcceptedSpan(text, s) == Some(Span(end, [0]))
    requires ChunkUri(chunks, 0) == Some(uri)
    requires SafeInsertionPoint(text, end) == at
    requires Splice(text, at, Link(0, uri)) == expected
    ensures ApplyAll(text, chunks, [s]) == Progress(expected, |Link(0, uri)|)
    ensures Annotate(true, text, Metadata(chunks, [s])) == expected
  {
    AnnotateOne(text, chunks, s);
    assert [s][..0] == [];
    OneLinkStep(text, chunks, Progress(text, 0), s, end, 0, uri, at);
  }

  /** A span ending at the end of the text gets its reference appended. */
  lemma SpanAtEndOfText(text: string, chunks: seq<GroundingChunk>, s: GroundingSupport)
    requires text == "The sky is blue" && chunks == [Source("http://x")] && s == Support(0, 15, [0])
    ensures Annotate(true, text, Metadata(chunks, [s])) == "The sky is blue[1](http://x)"
  {
    FirstLinks("http://x");
    SpliceAtEnd(text, Link(0, "http://x"));
    OneReference(text, chunks, s, 15, "http://x", 15, "The sky is blue[1](http://x)");
  }

  /** The first of two supports goes before the space. */
  lemma TwoSpansFirstStep(text: string, chunks: seq<GroundingChunk>, s0: GroundingSupport)
    requires text == "ab cd" && chunks == [Source("u"), Source("v")] && s0 == Support(0, 2, [0])
    ensures ApplyAll(text, chunks, [s0]) == Progress("ab[1](u) cd", 6)
  {
    assert BreakAt(text, 2);
    FirstLinks("u");
    assert text[..2] == "ab" && text[2..] == " cd";
    OneReference(text, chunks, s0, 2, "u", 2, "ab[1](u) cd");
  }

  /** The second support's end is shifted by the first reference's length and lands at the end. */
  lemma TwoSpansSecondStep(text: string, chunks: seq<GroundingChunk>, s1: GroundingSupport, p: Progress)
    requires text == "ab cd" && chunks == [Source("u"), Source("v")] && s1 == Support(3, 5, [1])
    requires p == Progress("ab[1](u) cd", 6)
    ensures ApplySupport(text, chunks, p, s1) == Progress("ab[1](u) cd[2](v)", 12)
  {
    assert ChunkUri(chunks, 1) == Some("v");
    assert |p.text| == 11;
    OneLinkStep(text, chunks, p, s1, 5, 1, "v", 11);
    FirstLinks("v");
    assert Splice(p.text, 11, "[2](v)") == p.text + "[2](v)" by {
      assert p.text[..11] == p.text && p.text[11..] == "";
    }
  }

  /** Two supports: the offset carries the first insertion over to the second. */
  lemma TwoSpansAccumulateOffset(text: string, chunks: seq<GroundingChunk>, s0: GroundingSupport, s1: GroundingSupport)
    requires text == "ab cd" && chunks == [Source("u"), Source("v")]
    requires s0 == Support(0, 2, [0]) && s1 == Support(3, 5, [1])
    ensures Annotate(true, text, Metadata(chunks, [s0, s1])) == "ab[1](u) cd[2](v)"
  {
    assert SortByStart([s0, s1]) == [s0, s1] by {
      SortOne(s1);
      assert [s0, s1][1..] == [s1];
    }
    assert [s0, s1][..1] == [s0];
    TwoSpansFirstStep(text, chunks, s0);
    TwoSpansSecondStep(text, chunks, s1, Progress("ab[1](u) cd", 6));
  }

  /** With no break after the end of the span, the reference goes at the raw index, inside the word. */
  lemma NoBreakFallsBackToRawIndex(text: string, chunks: seq<GroundingChunk>, s: GroundingSupport)
    requires text == "abc" && chunks == [Source("u")] && s == Support(0, 1, [0])
    ensures Annotate(true, text, Metadata(chunks, [s])) == "a[1](u)bc"
  {
    assert FirstBreakFrom(text, 1) == None;
    FirstLinks("u");
    assert text[..1] == "a" && text[1..] == "bc";
    OneReference(text, chunks, s, 1, "u", 1, "a[1](u)bc");
  }

  /** A negative end passes the guard; `slice` then counts it from the end of the text. */
  lemma NegativeEndCountsFromTheEnd(text: string, chunks: seq<GroundingChunk>, s: GroundingSupport)
    requires text == "ab" && chunks == [Source("u")] && s == Support(0, -1, [0])
    ensures Annotate(true, text, Metadata(chunks, [s])) == "a[1](u)b"
  {
    assert FirstBreakFrom(text, -1) == None;
    FirstLinks("u");
    assert text[..1] == "a" && text[1..] == "b";
    OneReference(text, chunks, s, -1, "u", -1, "a[1](u)b");
  }

  /** A position followed only by non-break characters is its own safe point. */
  lemma RawIndexBeforeTail(head: string, tail: string)
    requires tail != []
    requires forall k :: 0 <= k < |tail| ==> !IsBreakChar(tail[k])
    ensures SafeInsertionPoint(head + tail, |head|) == |head|
  {
    forall j | |head| <= j < |head + tail|
      ensures !BreakAt(head + tail, j)
    {
      assert (head + tail)[j] == tail[j - |head|];
    }
  }

  /** The first of two supports ends at the text end, so its reference is appended. */
  lemma OffsetLiftsNegativeEndFirstStep(text: string, chunks: seq<GroundingChunk>, s0: GroundingSupport)
    requires text == "a b c" && chunks == [Source("u"), Source("v")] && s0 == Support(0, 5, [0])
    ensures ApplyAll(text, chunks, [s0]) == Progress("a b c[1](u)", 6)
  {
    FirstLinks("u");
    SpliceAtEnd(text, "[1](u)");
    OneReference(text, chunks, s0, 5, "u", 5, "a b c[1](u)");
  }

  /** Nothing in the reference `[1](u)` is a break, so a scan starting at its `[` falls back. */
  lemma NoBreakInsideFirstReference(t: string)
    requires t == "a b c[1](u)"
    ensures SafeInsertionPoint(t, 5) == 5
  {
    var tail := "[1](u)";
    assert t == "a b c" + tail;
    assert !IsBreakChar('[') && !IsBreakChar('1') && !IsBreakChar(']');
    assert !IsBreakChar('(') && !IsBreakChar('u') && !IsBreakChar(')');
    assert forall k :: 0 <= k < |tail| ==> !IsBreakChar(tail[k]);
    RawIndexBeforeTail("a b c", tail);
  }

  /**
   * The second support ends at -1, but the offset 6 makes the scan start at 5,
   * inside the first reference, where no break follows: the raw index is used.
   */
  lemma OffsetLiftsNegativeEndSecondStep(text: string, chunks: seq<GroundingChunk>, s1: GroundingSupport, p: Progress)
    requires AcceptedSpan(text, s1) == Some(Span(-1, [1])) && ChunkUri(chunks, 1) == Some("v")
    requires p == Progress("a b c[1](u)", 6)
    ensures ApplySupport(text, chunks, p, s1) == Progress("a b c[2](v)[1](u)", 12)
  {
    NoBreakInsideFirstReference(p.text);
    OneLinkStep(text, chunks, p, s1, -1, 1, "v", 5);
    FirstLinks("v");
    SpliceInsideFirstReference(p.text);
  }

  lemma SpliceInsideFirstReference(t: string)
    requires t == "a b c[1](u)"
    ensures Splice(t, 5, "[2](v)") == "a b c[2](v)[1](u)"
  {
    assert t[..5] == "a b c" && t[5..] == "[1](u)";
  }

  /**
   * After an earlier insertion a negative end no longer scans from the start of
   * the text: `endIndex + offset` is the position searched from.
   */
  lemma OffsetLiftsNegativeEnd(text: string, chunks: seq<GroundingChunk>, s0: GroundingSupport, s1: GroundingSupport)
    requires text == "a b c" && chunks == [Source("u"), Source("v")]
    requires s0 == Support(0, 5, [0]) && s1 == Support(1, -1, [1])
    ensures Annotate(true, text, Metadata(chunks, [s0, s1])) == "a b c[2](v)[1](u)"
  {
    assert SortByStart([s0, s1]) == [s0, s1] by {
      SortOne(s1);
      assert [s0, s1][1..] == [s1];
    }
    assert [s0, s1][..1] == [s0];
    OffsetLiftsNegativeEndFirstStep(text, chunks, s0);
    assert AcceptedSpan(text, s1) == Some(Span(-1, [1])) && ChunkUri(chunks, 1) == Some("v");
    OffsetLiftsNegativeEndSecondStep(text, chunks, s1, Progress("a b c[1](u)", 6));
  }

  /** With a break anywhere in the text, a negative end never reaches `slice`: the scan from the start finds the first break. */
  lemma NegativeEndFindsFirstBreak(text: string, chunks: seq<GroundingChunk>, s: GroundingSupport)
    requires text == "a b" && chunks == [Source("u")] && s == Support(0, -1, [0])
    ensures Annotate(true, text, Metadata(chunks, [s])) == "a[1](u) b"
  {
    assert BreakAt(text, 1) && !BreakAt(text, -1) && !BreakAt(text, 0);
    assert SafeInsertionPoint(text, -1) == 1;
    FirstLinks("u");
    assert text[..1] == "a" && text[1..] == " b";
    OneReference(text, chunks, s, -1, "u", 1, "a[1](u) b");
  }

  /** A span whose only index has no chunk inserts nothing. */
  lemma OutOfRangeIndexInsertsNothing(text: string, chunks: seq<GroundingChunk>, s: GroundingSupport)
    requires text == "ab" && chunks == [Source("u")] && s == Support(0, 1, [3])
    ensures Annotate(true, text, Metadata(chunks, [s])) == text
  {
    AnnotateOne(text, chunks, s);
    CitationLinksSingle(chunks, 3);
  }
}
