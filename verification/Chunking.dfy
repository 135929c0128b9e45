// Splitting documents into retrievable spans (backend/app/rag/chunking.py).
module Chunking {
  import opened Wrappers
  import opened Text

  const MIN_CHUNK_SIZE := 50

  // -- cutting a list of words --------------------------------------------

  // A part may be too long only if it is a single word.
  predicate Fits(group: seq<string>, size: int) {
    |group| == 1 || |Join(group)| <= size
  }

  // An in-order cut of the words into nonempty parts that fit.
  ghost predicate Cut(groups: seq<seq<string>>, ws: seq<string>, size: int) {
    Flat(groups) == ws && forall i :: 0 <= i < |groups| ==> groups[i] != [] && Fits(groups[i], size)
  }

  ghost predicate Overflows(group: seq<string>, next: seq<string>, size: int) {
    group != [] && next != [] && |Join(group)| + 1 + |next[0]| > size
  }

  // No part had room for the word that starts the next one.
  ghost predicate Greedy(groups: seq<seq<string>>, size: int) {
    forall i :: 0 < i < |groups| ==> Overflows(groups[i - 1], groups[i], size)
  }

  // A part that fits cannot hold a greedy part and the word after it.
  lemma OverfullPart(
    part: seq<string>, before: seq<string>, full: seq<string>, word: string, after: seq<string>, size: int)
    requires part == before + full + [word] + after && full != [] && Fits(part, size)
    ensures |Join(full)| + 1 + |word| <= size
  {
    JoinLength(part);
    JoinLength(full);
    SpanAppend(before + full + [word], after);
    SpanAppend(before + full, [word]);
    SpanAppend(before, full);
    assert Span([word]) == |word| + 1;
  }

  // The greedy cut stays ahead: if another cut still has `lead` words more to
  // place, it has at least as many parts left.
  lemma {:induction false} GreedyStaysAhead(
    greedy: seq<seq<string>>, other: seq<seq<string>>, lead: seq<string>, size: int)
    requires Cut(greedy, Flat(greedy), size) && Greedy(greedy, size)
    requires Cut(other, lead + Flat(greedy), size)
    ensures |greedy| <= |other|
    decreases |greedy|
  {
    if greedy != [] {
      var full, part := greedy[0], other[0];
      var rest := Flat(greedy[1..]);
      assert Flat(greedy) == full + rest;
      if |part| > |lead| + |full| {
        var whole := lead + Flat(greedy);
        assert part == whole[..|part|];
        assert greedy[1..] != [] && Overflows(greedy[1 - 1], greedy[1], size);
        var word := greedy[1][0];
        assert rest[0] == word && whole[|lead| + |full|] == word;
        OverfullPart(part, lead, full, word, part[|lead| + |full| + 1..], size);
        assert false;
      } else {
        var ahead := (lead + full)[|part|..];
        var whole := (lead + full) + rest;
        assert lead + Flat(greedy) == whole;
        assert Flat(other[1..]) == (part + Flat(other[1..]))[|part|..] == whole[|part|..] == ahead + rest;
        GreedyTail(greedy, size);
        GreedyStaysAhead(greedy[1..], other[1..], ahead, size);
      }
    }
  }

  lemma GreedyTail(greedy: seq<seq<string>>, size: int)
    requires greedy != [] && Greedy(greedy, size)
    ensures Greedy(greedy[1..], size)
  {
    forall i | 0 < i < |greedy| - 1
      ensures Overflows(greedy[1..][i - 1], greedy[1..][i], size)
    {
      assert Overflows(greedy[i + 1 - 1], greedy[i + 1], size);
    }
  }

  // The greedy cut uses the fewest parts of any cut of the same words.
  lemma GreedyIsFewest(greedy: seq<seq<string>>, other: seq<seq<string>>, ws: seq<string>, size: int)
    requires Cut(greedy, ws, size) && Greedy(greedy, size) && Cut(other, ws, size)
    ensures |greedy| <= |other|
  {
    assert [] + Flat(greedy) == ws;
    GreedyStaysAhead(greedy, other, [], size);
  }

  // -- _split_long --------------------------------------------------------

  function WordsOfEach(parts: seq<string>): (groups: seq<seq<string>>)
    ensures |groups| == |parts| && forall i :: 0 <= i < |parts| ==> groups[i] == Words(parts[i])
  {
    seq(|parts|, i requires 0 <= i < |parts| => Words(parts[i]))
  }

  // The greedy parts of a list of words, each its words with single spaces between them.
  ghost predicate Packing(parts: seq<string>, words: seq<string>, size: int) {
    && Cut(WordsOfEach(parts), words, size) && Greedy(WordsOfEach(parts), size)
    && forall i :: 0 <= i < |parts| ==> parts[i] == Join(Words(parts[i]))
  }

  // The parts finished so far and the words of the current one, after `done` words.
  ghost predicate Packed(parts: seq<string>, group: seq<string>, done: seq<string>, size: int) {
    && (forall j :: 0 <= j < |group| ==> IsWord(group[j]))
    && (forall i :: 0 <= i < |parts| ==> Words(parts[i]) != [] && Fits(Words(parts[i]), size))
    && (forall i :: 0 <= i < |parts| ==> parts[i] == Join(Words(parts[i])))
    && Flat(WordsOfEach(parts)) + group == done
    && (if group == [] then parts == []
        else Fits(group, size) && Greedy(WordsOfEach(parts) + [group], size))
  }

  // The same, with the current part as its text.
  ghost predicate Holding(
    parts: seq<string>, current: string, group: seq<string>, done: seq<string>, size: int)
  {
    current == Join(group) && Packed(parts, group, done, size)
  }

  lemma NextWord(
    parts: seq<string>, current: string, group: seq<string>, words: seq<string>, i: nat, size: int)
    requires i < |words| && IsWord(words[i]) && Holding(parts, current, group, words[..i], size)
    ensures var candidate := Strip(current + " " + words[i]);
            if |candidate| > size && current != ""
            then Holding(parts + [current], words[i], [words[i]], words[..i + 1], size)
            else Holding(parts, candidate, group + [words[i]], words[..i + 1], size)
  {
    CandidateIsJoin(group, words[i]);
    JoinOfNone(group);
    assert words[..i + 1] == words[..i] + [words[i]];
    if |Strip(current + " " + words[i])| > size && current != "" {
      StartPart(parts, group, words[..i], words[i], size);
    } else {
      ExtendPart(parts, group, words[..i], words[i], size);
    }
  }

  lemma AllPacked(parts: seq<string>, current: string, group: seq<string>, words: seq<string>, size: int)
    requires Holding(parts, current, group, words, size)
    ensures Packing(if current != "" then parts + [current] else parts, words, size)
  {
    JoinOfNone(group);
    if current != "" {
      LastPart(parts, group, words, size);
    } else {
      NoLastPart(parts, words, size);
    }
  }

  method SplitLong(paragraph: string, size: int) returns (parts: seq<string>)
    ensures Packing(parts, Words(paragraph), size)
  {
    parts := [];
    var current := "";
    var words := Words(paragraph);
    ghost var group: seq<string> := [];
    for i := 0 to |words|
      invariant Holding(parts, current, group, words[..i], size)
    {
      NextWord(parts, current, group, words, i, size);
      var word := words[i];
      var candidate := Strip(current + " " + word);
      if |candidate| > size && current != "" {
        parts := parts + [current];
        current := word;
        group := [word];
      } else {
        current := candidate;
        group := group + [word];
      }
    }
    assert words[..|words|] == words;
    AllPacked(parts, current, group, words, size);
    if current != "" {
      parts := parts + [current];
    }
  }

  lemma NoLastPart(parts: seq<string>, words: seq<string>, size: int)
    requires Packed(parts, [], words, size)
    ensures Packing(parts, words, size)
  {
  }

  lemma LastPart(parts: seq<string>, group: seq<string>, words: seq<string>, size: int)
    requires Packed(parts, group, words, size) && group != []
    ensures Packing(parts + [Join(group)], words, size)
  {
    Appended(parts, group);
    var all := parts + [Join(group)];
    forall i | 0 <= i < |all|
      ensures Words(all[i]) != [] && Fits(Words(all[i]), size) && all[i] == Join(Words(all[i]))
    {
      if i < |parts| {
        assert all[i] == parts[i];
      }
    }
  }

  lemma JoinOfNone(group: seq<string>)
    requires forall j :: 0 <= j < |group| ==> IsWord(group[j])
    ensures Join(group) == "" <==> group == []
  {
    if group != [] {
      JoinIsTrimmed(group);
    }
  }

  lemma StartPart(parts: seq<string>, group: seq<string>, done: seq<string>, word: string, size: int)
    requires Packed(parts, group, done, size) && group != [] && IsWord(word)
    requires |Join(group)| + 1 + |word| > size
    ensures Packed(parts + [Join(group)], [word], done + [word], size)
  {
    Appended(parts, group);
    var before := WordsOfEach(parts) + [group];
    forall i | 0 < i < |before + [[word]]|
      ensures Overflows((before + [[word]])[i - 1], (before + [[word]])[i], size)
    {
      if i < |before| {
        assert Overflows(before[i - 1], before[i], size);
      }
    }
  }

  lemma ExtendPart(parts: seq<string>, group: seq<string>, done: seq<string>, word: string, size: int)
    requires Packed(parts, group, done, size) && IsWord(word)
    requires group == [] || |Join(group + [word])| <= size
    ensures Packed(parts, group + [word], done + [word], size)
  {
    var before, after := WordsOfEach(parts) + [group], WordsOfEach(parts) + [group + [word]];
    forall i | 0 < i < |after|
      ensures Overflows(after[i - 1], after[i], size)
    {
      assert Overflows(before[i - 1], before[i], size);
    }
  }

  lemma CandidateIsJoin(group: seq<string>, word: string)
    requires IsWord(word) && forall j :: 0 <= j < |group| ==> IsWord(group[j])
    ensures Strip(Join(group) + " " + word) == Join(group + [word])
    ensures group != [] ==> |Join(group + [word])| == |Join(group)| + 1 + |word|
  {
    if group == [] {
      FirstCandidate(word);
      assert Join(group) + " " + word == " " + word;
      assert group + [word] == [word];
    } else {
      LaterCandidate(group, word);
    }
  }

  lemma StripOfJoin(words: seq<string>)
    requires words != [] && forall j :: 0 <= j < |words| ==> IsWord(words[j])
    ensures Strip(Join(words)) == Join(words)
  {
    var text := Join(words);
    JoinIsTrimmed(words);
    StripOfTrimmed(text);
  }

  lemma LaterCandidate(group: seq<string>, word: string)
    requires group != [] && IsWord(word) && forall j :: 0 <= j < |group| ==> IsWord(group[j])
    ensures Join(group + [word]) == Join(group) + " " + word
    ensures Strip(Join(group + [word])) == Join(group + [word])
  {
    var longer := group + [word];
    forall j | 0 <= j < |longer|
      ensures IsWord(longer[j])
    {
      assert longer[j] == if j < |group| then group[j] else word;
    }
    JoinSnoc(group, word);
    StripOfJoin(longer);
  }

  lemma FirstCandidate(word: string)
    requires IsWord(word)
    ensures Strip(" " + word) == word
  {
    assert (" " + word)[1..] == word;
    assert RStrip(" " + word) == " " + word && LStrip(word) == word;
  }

  lemma EachAppend(parts: seq<string>, part: string)
    ensures WordsOfEach(parts + [part]) == WordsOfEach(parts) + [Words(part)]
  {
  }

  lemma Appended(parts: seq<string>, group: seq<string>)
    requires forall j :: 0 <= j < |group| ==> IsWord(group[j])
    ensures Words(Join(group)) == group
    ensures WordsOfEach(parts + [Join(group)]) == WordsOfEach(parts) + [group]
    ensures Flat(WordsOfEach(parts + [Join(group)])) == Flat(WordsOfEach(parts)) + group
  {
    WordsOfJoin(group);
    EachAppend(parts, Join(group));
    FlatSnoc(WordsOfEach(parts), group);
  }

  // -- chunk_text ---------------------------------------------------------

  // Where the first blank line starts, or the length of the text.
  function FindBreak(text: string): (i: nat)
    ensures i == |text| || (i + 2 <= |text| && text[i] == '\n' && text[i + 1] == '\n')
    ensures forall j :: 0 <= j < i && j + 1 < |text| ==> text[j] != '\n' || text[j + 1] != '\n'
  {
    if |text| < 2 then |text|
    else if text[0] == '\n' && text[1] == '\n' then 0
    else 1 + FindBreak(text[1..])
  }

  // `text.split("\n\n")`
  function Paragraphs(text: string): seq<string>
    decreases |text|
  {
    var i := FindBreak(text);
    if i == |text| then [text] else [text[..i]] + Paragraphs(text[i + 2..])
  }

  ghost predicate NoBlankLine(text: string) {
    forall j :: 0 <= j < |text| - 1 ==> !BlankLineAt(text, j)
  }

  predicate BlankLineAt(text: string, j: nat)
    requires j + 1 < |text|
  {
    text[j] == '\n' && text[j + 1] == '\n'
  }

  // The texts with a blank line after each but the last.
  function Separated(parts: seq<string>): string {
    if parts == [] then ""
    else if |parts| == 1 then parts[0]
    else parts[0] + "\n\n" + Separated(parts[1..])
  }

  // The text cut at its blank lines, each part ending where the first one left begins: not
  // even its last newline and the first of the blank line make one earlier.
  ghost predicate CutAtBlankLines(parts: seq<string>, text: string) {
    && parts != [] && Separated(parts) == text
    && (forall i :: 0 <= i < |parts| - 1 ==> NoBlankLine(parts[i] + "\n"))
    && NoBlankLine(parts[|parts| - 1])
  }

  lemma NoneBefore(text: string, i: nat)
    requires i == FindBreak(text) < |text|
    ensures NoBlankLine(text[..i] + "\n")
  {
    var head := text[..i] + "\n";
    forall j | 0 <= j < |head| - 1
      ensures !BlankLineAt(head, j)
    {
      assert head[j] == text[j] && head[j + 1] == text[j + 1];
    }
  }

  lemma AroundBlankLine(text: string, i: nat)
    requires i + 1 < |text| && BlankLineAt(text, i)
    ensures text == text[..i] + "\n\n" + text[i + 2..]
  {
    assert text[i..i + 2] == "\n\n";
    assert text == text[..i] + text[i..i + 2] + text[i + 2..];
  }

  lemma FirstBreak(text: string, i: nat)
    requires i == FindBreak(text)
    ensures i == |text| ==> NoBlankLine(text)
    ensures i < |text| ==> text == text[..i] + "\n\n" + text[i + 2..] && NoBlankLine(text[..i] + "\n")
  {
    if i < |text| {
      NoneBefore(text, i);
      AroundBlankLine(text, i);
    }
  }

  lemma {:induction false} ParagraphsAreCut(text: string)
    ensures CutAtBlankLines(Paragraphs(text), text)
    decreases |text|
  {
    var i := FindBreak(text);
    FirstBreak(text, i);
    if i < |text| {
      var rest := Paragraphs(text[i + 2..]);
      ParagraphsAreCut(text[i + 2..]);
      assert ([text[..i]] + rest)[1..] == rest;
    }
  }

  lemma BreakIsNot(head: string, rest: string, i: nat)
    requires i < |head| && NoBlankLine(head + "\n")
    ensures !BlankLineAt(head + "\n\n" + rest, i)
  {
    assert !BlankLineAt(head + "\n", i);
  }

  lemma BreakIsFirst(head: string, rest: string)
    requires NoBlankLine(head + "\n")
    ensures FindBreak(head + "\n\n" + rest) == |head|
  {
    var text := head + "\n\n" + rest;
    var i := FindBreak(text);
    assert BlankLineAt(text, |head|);
    assert i <= |head|;
    if i < |head| {
      BreakIsNot(head, rest, i);
    }
  }

  lemma NoBreakFound(text: string)
    requires NoBlankLine(text)
    ensures FindBreak(text) == |text|
  {
    var i := FindBreak(text);
    assert i < |text| ==> !BlankLineAt(text, i);
  }

  lemma LaterParts(parts: seq<string>, text: string)
    requires CutAtBlankLines(parts, text) && |parts| > 1
    ensures text == parts[0] + "\n\n" + Separated(parts[1..])
    ensures CutAtBlankLines(parts[1..], Separated(parts[1..]))
  {
    forall i | 0 <= i < |parts| - 2
      ensures NoBlankLine(parts[1..][i] + "\n")
    {
      assert parts[1..][i] == parts[i + 1];
    }
  }

  // The first part of a cut ends at the first blank line.
  lemma FirstPartEnds(parts: seq<string>, text: string)
    requires CutAtBlankLines(parts, text)
    ensures |parts| == 1 <==> FindBreak(text) == |text|
    ensures parts[0] == text[..FindBreak(text)]
    ensures |parts| > 1 ==> FindBreak(text) + 2 <= |text| &&
                            CutAtBlankLines(parts[1..], text[FindBreak(text) + 2..])
  {
    if |parts| == 1 {
      NoBreakFound(text);
    } else {
      var head, rest := parts[0], Separated(parts[1..]);
      LaterParts(parts, text);
      assert NoBlankLine(parts[0] + "\n");
      BreakIsFirst(head, rest);
      assert text[|head| + 2..] == rest && text[..|head|] == head;
    }
  }

  // There is only one such cut.
  lemma {:induction false} CutAtBlankLinesIsUnique(a: seq<string>, b: seq<string>, text: string)
    requires CutAtBlankLines(a, text) && CutAtBlankLines(b, text)
    ensures a == b
    decreases |a|
  {
    FirstPartEnds(a, text);
    FirstPartEnds(b, text);
    if |a| > 1 {
      CutAtBlankLinesIsUnique(a[1..], b[1..], text[FindBreak(text) + 2..]);
      assert a == [a[0]] + a[1..] && b == [b[0]] + b[1..];
    }
  }

  // The words of some texts, one text after another.
  function AllWords(texts: seq<string>): seq<string> {
    if texts == [] then [] else Words(texts[0]) + AllWords(texts[1..])
  }

  lemma AllWordsFirst(p: string, rest: seq<string>)
    ensures AllWords([p] + rest) == Words(p) + AllWords(rest)
  {
    assert ([p] + rest)[1..] == rest;
  }

  lemma {:induction false} AllWordsAppend(a: seq<string>, b: seq<string>)
    ensures AllWords(a + b) == AllWords(a) + AllWords(b)
  {
    if a == [] {
      assert a + b == b;
    } else {
      assert (a + b)[1..] == a[1..] + b;
      AllWordsAppend(a[1..], b);
    }
  }

  lemma {:induction false} AllWordsIsFlat(parts: seq<string>)
    ensures AllWords(parts) == Flat(WordsOfEach(parts))
  {
    if parts != [] {
      AllWordsIsFlat(parts[1..]);
      assert WordsOfEach(parts)[1..] == WordsOfEach(parts[1..]);
    }
  }

  lemma {:induction false} ParagraphWords(text: string)
    ensures AllWords(Paragraphs(text)) == Words(text)
    decreases |text|
  {
    var i := FindBreak(text);
    if i == |text| {
      AllWordsFirst(text, []);
      assert Paragraphs(text) == [text] + [];
    } else {
      FirstBreak(text, i);
      ParagraphWords(text[i + 2..]);
      AllWordsFirst(text[..i], Paragraphs(text[i + 2..]));
      BreakWords(text[..i], text[i + 2..]);
    }
  }

  lemma BreakWords(head: string, rest: string)
    ensures Words(head + "\n\n" + rest) == Words(head) + Words(rest)
  {
    WordsApart(head, '\n', "\n" + rest);
    WordsApart([], '\n', rest);
    assert head + "\n\n" + rest == head + ['\n'] + ("\n" + rest);
    assert "\n" + rest == [] + ['\n'] + rest;
  }

  datatype ChunkError = ChunkSizeTooSmall

  ghost predicate GoodChunk(chunk: string, size: int) {
    Words(chunk) != [] && (|chunk| <= size || IsWord(chunk))
  }

  // What becomes of one paragraph: nothing, itself, or its greedy parts.
  ghost predicate ParagraphChunks(parts: seq<string>, p: string, size: int) {
    var paragraph := Strip(p);
    if paragraph == "" then parts == []
    else if |paragraph| <= size then parts == [paragraph]
    else Packing(parts, Words(paragraph), size)
  }

  // Each paragraph's chunks, and all of them in order.
  ghost predicate Chunked(chunks: seq<string>, each: seq<seq<string>>, paragraphs: seq<string>, size: int) {
    && chunks == Flat(each) && |each| == |paragraphs|
    && forall k :: 0 <= k < |paragraphs| ==> ChunkedAt(each, paragraphs, k, size)
  }

  ghost predicate ChunkedAt(each: seq<seq<string>>, paragraphs: seq<string>, k: nat, size: int)
    requires k < |each| && k < |paragraphs|
  {
    ParagraphChunks(each[k], paragraphs[k], size)
  }

  // The body of the source's loop over paragraphs.
  method OfParagraph(p: string, size: int) returns (parts: seq<string>)
    ensures ParagraphChunks(parts, p, size)
  {
    var paragraph := Strip(p);
    if paragraph == "" {
      parts := [];
    } else if |paragraph| <= size {
      parts := [paragraph];
    } else {
      parts := SplitLong(paragraph, size);
    }
  }

  method ChunkText(text: string, size: int) returns (r: Result<seq<string>, ChunkError>, ghost each: seq<seq<string>>)
    ensures r.Failure? <==> size < MIN_CHUNK_SIZE
    ensures r.Success? ==> Chunked(r.value, each, Paragraphs(text), size)
    ensures CutAtBlankLines(Paragraphs(text), text)
    ensures r.Success? ==> AllWords(r.value) == Words(text)
    ensures r.Success? ==> forall i :: 0 <= i < |r.value| ==> GoodChunk(r.value[i], size)
  {
    ParagraphsAreCut(text);
    if size < MIN_CHUNK_SIZE {
      return Failure(ChunkSizeTooSmall), [];
    }
    var chunks;
    chunks, each := ChunkParagraphs(Paragraphs(text), size);
    TextIsChunked(chunks, each, text, size);
    if chunks == [] && Strip(text) != "" {
      // The source's fallback for a text without chunks: never reached.
      assert false;
    }
    r := Success(chunks);
  }

  method ChunkParagraphs(paragraphs: seq<string>, size: int)
    returns (chunks: seq<string>, ghost each: seq<seq<string>>)
    ensures Chunked(chunks, each, paragraphs, size)
  {
    chunks, each := [], [];
    for k := 0 to |paragraphs|
      invariant Chunked(chunks, each, paragraphs[..k], size)
    {
      chunks, each := AddParagraph(chunks, each, paragraphs, k, size);
    }
    assert paragraphs[..|paragraphs|] == paragraphs;
  }

  method AddParagraph(
    chunks: seq<string>, ghost each: seq<seq<string>>, paragraphs: seq<string>, k: nat, size: int)
    returns (more: seq<string>, ghost moreEach: seq<seq<string>>)
    requires k < |paragraphs| && Chunked(chunks, each, paragraphs[..k], size)
    ensures Chunked(more, moreEach, paragraphs[..k + 1], size)
  {
    var parts := OfParagraph(paragraphs[k], size);
    OneMoreParagraph(chunks, each, paragraphs[..k], parts, paragraphs[k], size);
    assert paragraphs[..k + 1] == paragraphs[..k] + [paragraphs[k]];
    more, moreEach := chunks + parts, each + [parts];
  }

  lemma OneMoreParagraph(
    chunks: seq<string>, each: seq<seq<string>>, read: seq<string>, parts: seq<string>, p: string, size: int)
    requires Chunked(chunks, each, read, size) && ParagraphChunks(parts, p, size)
    ensures Chunked(chunks + parts, each + [parts], read + [p], size)
  {
    FlatSnoc(each, parts);
    var more, longer := each + [parts], read + [p];
    forall k | 0 <= k < |longer|
      ensures ChunkedAt(more, longer, k, size)
    {
      assert k < |read| ==> ChunkedAt(each, read, k, size);
    }
  }

  lemma OneParagraph(parts: seq<string>, p: string, size: int)
    requires ParagraphChunks(parts, p, size)
    ensures AllWords(parts) == Words(p)
    ensures forall i :: 0 <= i < |parts| ==> GoodChunk(parts[i], size)
  {
    WordsOfStrip(p);
    if Strip(p) == "" {
    } else if |Strip(p)| <= size {
      AllWordsFirst(Strip(p), []);
      assert [Strip(p)] + [] == [Strip(p)];
      StripHasWord(p);
    } else {
      PartsAreGood(parts, Words(Strip(p)), size);
    }
  }

  lemma PartsAreGood(parts: seq<string>, words: seq<string>, size: int)
    requires Packing(parts, words, size)
    ensures AllWords(parts) == words
    ensures forall i :: 0 <= i < |parts| ==> GoodChunk(parts[i], size)
  {
    AllWordsIsFlat(parts);
    forall i | 0 <= i < |parts|
      ensures GoodChunk(parts[i], size)
    {
      assert WordsOfEach(parts)[i] == Words(parts[i]);
    }
  }

  lemma TailChunked(chunks: seq<string>, each: seq<seq<string>>, paragraphs: seq<string>, size: int)
    requires Chunked(chunks, each, paragraphs, size) && paragraphs != []
    ensures chunks == each[0] + Flat(each[1..]) && ParagraphChunks(each[0], paragraphs[0], size)
    ensures Chunked(Flat(each[1..]), each[1..], paragraphs[1..], size)
  {
    assert ChunkedAt(each, paragraphs, 0, size);
    forall k | 0 <= k < |paragraphs| - 1
      ensures ChunkedAt(each[1..], paragraphs[1..], k, size)
    {
      assert ChunkedAt(each, paragraphs, k + 1, size);
    }
  }

  ghost predicate KeepsWords(chunks: seq<string>, texts: seq<string>, size: int) {
    && AllWords(chunks) == AllWords(texts)
    && forall i :: 0 <= i < |chunks| ==> GoodChunk(chunks[i], size)
  }

  lemma KeepsWordsAppend(parts: seq<string>, p: string, rest: seq<string>, ps: seq<string>, size: int)
    requires ParagraphChunks(parts, p, size) && KeepsWords(rest, ps, size)
    ensures KeepsWords(parts + rest, [p] + ps, size)
  {
    OneParagraph(parts, p, size);
    AllWordsAppend(parts, rest);
    AllWordsFirst(p, ps);
  }

  lemma {:induction false} ChunksKeepWords(
    chunks: seq<string>, each: seq<seq<string>>, paragraphs: seq<string>, size: int)
    requires Chunked(chunks, each, paragraphs, size)
    ensures KeepsWords(chunks, paragraphs, size)
    decreases |paragraphs|
  {
    if paragraphs == [] {
      assert chunks == [];
    } else {
      TailChunked(chunks, each, paragraphs, size);
      ChunksKeepWords(Flat(each[1..]), each[1..], paragraphs[1..], size);
      KeepsWordsAppend(each[0], paragraphs[0], Flat(each[1..]), paragraphs[1..], size);
      assert paragraphs == [paragraphs[0]] + paragraphs[1..];
    }
  }

  lemma TextIsChunked(chunks: seq<string>, each: seq<seq<string>>, text: string, size: int)
    requires Chunked(chunks, each, Paragraphs(text), size)
    ensures AllWords(chunks) == Words(text)
    ensures forall i :: 0 <= i < |chunks| ==> GoodChunk(chunks[i], size)
    ensures chunks == [] ==> Strip(text) == ""
  {
    ChunksKeepWords(chunks, each, Paragraphs(text), size);
    ParagraphWords(text);
    if Strip(text) != "" {
      StripHasWord(text);
    }
  }

  lemma StripHasWord(s: string)
    requires Strip(s) != ""
    ensures Words(Strip(s)) == Words(s) != []
  {
    WordsOfStrip(s);
  }
}
