/**
 * The chunk splitter of the language-model analyser: source code is cut at `class`/`def`
 * headers, and each chunk over the token budget is packed greedily, line by line, into
 * pieces. The regular-expression split and the tokenizer are inputs of the model: `parts`
 * is what `re.split` returns for the header pattern (one capturing group, so an odd number
 * of parts, the headers at the odd positions) and `countTokens` is the tokenizer's count.
 */
module ChunkSplitter {
  import opened Text

  /** The token budget of one request. */
  const MaxTokens: nat := 120_000

  /** Each header joined with the body that follows it, in order. */
  function HeaderBodies(parts: seq<string>): seq<string>
    requires |parts| % 2 == 1
  {
    seq(|parts| / 2, j requires 0 <= j < |parts| / 2 => parts[2 * j + 1] + parts[2 * j + 2])
  }

  /**
   * The chunks before the budget is applied: with at least one header, the text before
   * the first header unless it is blank, then each header with its body; without any
   * header, the whole code.
   */
  function HeaderChunks(code: string, parts: seq<string>): (chunks: seq<string>)
    requires |parts| % 2 == 1
    ensures |parts| == 1 ==> chunks == [code]
    ensures |parts| > 1 ==> |chunks| == |parts| / 2 + (if IsBlank(parts[0]) then 0 else 1)
    ensures |parts| > 1 && !IsBlank(parts[0]) ==> chunks[0] == parts[0]
    ensures |parts| > 1 ==> forall j :: 0 <= j < |parts| / 2 ==>
      chunks[|chunks| - |parts| / 2 + j] == parts[2 * j + 1] + parts[2 * j + 2]
  {
    if |parts| > 1 then (if IsBlank(parts[0]) then [] else [parts[0]]) + HeaderBodies(parts)
    else [code]
  }

  lemma {:induction false} HeaderBodiesConcat(parts: seq<string>)
    requires |parts| % 2 == 1
    ensures Concat(HeaderBodies(parts)) == Concat(parts[1..])
    decreases |parts|
  {
    if |parts| > 1 {
      var rest := parts[2..];
      HeaderBodiesConcat(rest);
      assert HeaderBodies(parts) == [parts[1] + parts[2]] + HeaderBodies(rest);
      assert parts[1..][1..] == rest;
      calc {
        Concat(parts[1..]);
        parts[1] + Concat(parts[2..]);
        parts[1] + (parts[2] + Concat(rest[1..]));
        (parts[1] + parts[2]) + Concat(HeaderBodies(rest));
        Concat(HeaderBodies(parts));
      }
    } else {
      assert parts[1..] == [];
    }
  }

  /**
   * Grouping at headers loses no text but a blank lead: when the parts spell the code,
   * the chunks spell it too, without the text before the first header when that text is
   * blank.
   */
  lemma HeaderChunksConcat(code: string, parts: seq<string>)
    requires |parts| % 2 == 1 && Concat(parts) == code
    ensures |parts| > 1 && IsBlank(parts[0]) ==>
      Concat(HeaderChunks(code, parts)) == code[|parts[0]|..] && code[..|parts[0]|] == parts[0]
    ensures !(|parts| > 1 && IsBlank(parts[0])) ==> Concat(HeaderChunks(code, parts)) == code
  {
    if |parts| > 1 {
      var head, bodies := parts[0], HeaderBodies(parts);
      HeaderBodiesConcat(parts);
      assert code == head + Concat(parts[1..]);
      if IsBlank(head) {
        assert HeaderChunks(code, parts) == bodies;
        assert code[|head|..] == Concat(parts[1..]);
      } else {
        assert HeaderChunks(code, parts) == [head] + bodies;
        ConcatAppend([head], bodies);
        assert Concat([head]) == head + Concat([head][1..]);
      }
    } else {
      assert parts[1..] == [];
      assert Concat([code]) == code + Concat([code][1..]);
    }
  }

  /** The first loop of `split_into_chunks`: the chunks at header boundaries. */
  method GroupAtHeaders(code: string, parts: seq<string>) returns (chunks: seq<string>)
    requires |parts| % 2 == 1
    ensures chunks == HeaderChunks(code, parts)
  {
    if |parts| > 1 {
      var head := parts[0];
      chunks := [];
      StripEmptyIffBlank(head);
      if Strip(head) != "" {
        chunks := chunks + [head];
      }
      chunks := AppendHeaderBodies(chunks, parts);
    } else {
      chunks := [code];
    }
  }

  /** The header loop proper: each header joined with its body is appended in turn. */
  method AppendHeaderBodies(lead: seq<string>, parts: seq<string>) returns (chunks: seq<string>)
    requires |parts| % 2 == 1
    ensures chunks == lead + HeaderBodies(parts)
  {
    chunks := lead;
    ghost var bodies := HeaderBodies(parts);
    ghost var j := 0;
    var i := 1;
    while i < |parts|
      invariant i == 2 * j + 1 && j <= |bodies|
      invariant chunks == lead + bodies[..j]
      decreases |parts| - i
    {
      var header, body := parts[i], parts[i + 1];
      assert bodies[j] == header + body;
      assert bodies[..j + 1] == bodies[..j] + [header + body];
      chunks := chunks + [header + body];
      i := i + 2;
      j := j + 1;
    }
    assert bodies[..j] == bodies;
  }

  /**
   * The pieces the packing loop emits from the accumulator `temp` over `lines`: a line
   * that would push the accumulator over the budget closes the accumulator as a piece and
   * starts the next one; otherwise it is added to the accumulator. At the end the
   * accumulator is emitted unless empty.
   */
  function Pack(lines: seq<string>, countTokens: string -> nat, temp: string): seq<string>
    decreases |lines|
  {
    if lines == [] then (if temp != "" then [temp] else [])
    else if countTokens(temp + lines[0]) > MaxTokens then [temp] + Pack(lines[1..], countTokens, lines[0])
    else Pack(lines[1..], countTokens, temp + lines[0])
  }

  /** Packing keeps the text: the pieces spell the accumulator followed by the lines. */
  lemma {:induction false} PackConcat(lines: seq<string>, countTokens: string -> nat, temp: string)
    ensures Concat(Pack(lines, countTokens, temp)) == temp + Concat(lines)
    decreases |lines|
  {
    if lines == [] {
      assert temp + "" == temp;
    } else if countTokens(temp + lines[0]) > MaxTokens {
      PackConcat(lines[1..], countTokens, lines[0]);
      ConcatAppend([temp], Pack(lines[1..], countTokens, lines[0]));
      assert temp + (lines[0] + Concat(lines[1..])) == temp + Concat(lines);
    } else {
      PackConcat(lines[1..], countTokens, temp + lines[0]);
      assert (temp + lines[0]) + Concat(lines[1..]) == temp + (lines[0] + Concat(lines[1..]));
    }
  }

  /**
   * Every piece is the starting accumulator, a single line, or within the budget: a piece
   * of several lines always fits.
   */
  lemma {:induction false} PackPieces(lines: seq<string>, countTokens: string -> nat, temp: string)
    ensures forall p :: p in Pack(lines, countTokens, temp) ==>
      p == temp || p in lines || countTokens(p) <= MaxTokens
    decreases |lines|
  {
    if lines != [] {
      var rest := lines[1..];
      assert forall l :: l in rest ==> l in lines;
      if countTokens(temp + lines[0]) > MaxTokens {
        PackPieces(rest, countTokens, lines[0]);
      } else {
        PackPieces(rest, countTokens, temp + lines[0]);
      }
    }
  }

  /**
   * With no empty line, an empty piece can only be the first one, and only when packing
   * starts from an empty accumulator.
   */
  lemma {:induction false} PackEmptyOnlyFirst(lines: seq<string>, countTokens: string -> nat, temp: string)
    requires forall k :: 0 <= k < |lines| ==> lines[k] != ""
    ensures forall k :: 0 <= k < |Pack(lines, countTokens, temp)| && Pack(lines, countTokens, temp)[k] == "" ==>
      k == 0 && temp == ""
    decreases |lines|
  {
    if lines != [] {
      var rest := lines[1..];
      assert forall k :: 0 <= k < |rest| ==> rest[k] == lines[k + 1];
      if countTokens(temp + lines[0]) > MaxTokens {
        PackEmptyOnlyFirst(rest, countTokens, lines[0]);
      } else {
        assert temp + lines[0] != "" by { assert |temp + lines[0]| >= |lines[0]| > 0; }
        PackEmptyOnlyFirst(rest, countTokens, temp + lines[0]);
      }
    }
  }

  /** The inner loop of `split_into_chunks` over the lines of an oversize chunk. */
  method PackLines(lines: seq<string>, countTokens: string -> nat) returns (pieces: seq<string>)
    ensures pieces == Pack(lines, countTokens, "")
  {
    var temp := "";
    pieces := [];
    for i := 0 to |lines|
      invariant pieces + Pack(lines[i..], countTokens, temp) == Pack(lines, countTokens, "")
    {
      var line := lines[i];
      assert lines[i..][1..] == lines[i + 1..];
      if countTokens(temp + line) > MaxTokens {
        assert pieces + Pack(lines[i..], countTokens, temp)
            == (pieces + [temp]) + Pack(lines[i + 1..], countTokens, line);
        pieces := pieces + [temp];
        temp := line;
      } else {
        temp := temp + line;
      }
    }
    if temp != "" {
      pieces := pieces + [temp];
    }
  }

  /** The pieces of one chunk: the chunk itself within the budget, its packed lines otherwise. */
  function PiecesOf(chunk: string, countTokens: string -> nat): seq<string> {
    if countTokens(chunk) <= MaxTokens then [chunk] else Pack(SplitLines(chunk), countTokens, "")
  }

  /** The pieces of each chunk in turn. */
  function PiecesOfChunks(chunks: seq<string>, countTokens: string -> nat): seq<string> {
    if chunks == [] then []
    else PiecesOfChunks(chunks[..|chunks| - 1], countTokens) + PiecesOf(chunks[|chunks| - 1], countTokens)
  }

  /** The pieces of the first `k + 1` chunks extend those of the first `k` by the pieces of chunk `k`. */
  lemma PiecesOfChunksStep(chunks: seq<string>, k: nat, countTokens: string -> nat)
    requires k < |chunks|
    ensures PiecesOfChunks(chunks[..k + 1], countTokens)
         == PiecesOfChunks(chunks[..k], countTokens) + PiecesOf(chunks[k], countTokens)
  {
    assert chunks[..k + 1][..k] == chunks[..k];
  }

  /** The result of `split_into_chunks`. */
  function Chunks(code: string, parts: seq<string>, countTokens: string -> nat): seq<string>
    requires |parts| % 2 == 1
  {
    PiecesOfChunks(HeaderChunks(code, parts), countTokens)
  }

  /**
   * The pieces of a chunk spell the chunk; a piece over the budget is empty or a single
   * line of the chunk; an empty piece can only come first.
   */
  lemma PiecesOfSpec(chunk: string, countTokens: string -> nat)
    ensures Concat(PiecesOf(chunk, countTokens)) == chunk
    ensures forall p :: p in PiecesOf(chunk, countTokens) && countTokens(p) > MaxTokens ==>
      p == "" || p in SplitLines(chunk)
    ensures forall k :: 0 < k < |PiecesOf(chunk, countTokens)| ==> PiecesOf(chunk, countTokens)[k] != ""
  {
    PiecesOfConcat(chunk, countTokens);
    if countTokens(chunk) > MaxTokens {
      var lines := SplitLines(chunk);
      PackPieces(lines, countTokens, "");
      PackEmptyOnlyFirst(lines, countTokens, "");
    }
  }

  /** The pieces of a chunk spell the chunk. */
  lemma PiecesOfConcat(chunk: string, countTokens: string -> nat)
    ensures Concat(PiecesOf(chunk, countTokens)) == chunk
  {
    if countTokens(chunk) <= MaxTokens {
      assert chunk + "" == chunk;
    } else {
      var lines := SplitLines(chunk);
      PackConcat(lines, countTokens, "");
      assert "" + Concat(lines) == chunk;
    }
  }

  /** The pieces of all chunks spell the chunks. */
  lemma {:induction false} PiecesOfChunksConcat(chunks: seq<string>, countTokens: string -> nat)
    ensures Concat(PiecesOfChunks(chunks, countTokens)) == Concat(chunks)
  {
    if chunks != [] {
      var init, last := chunks[..|chunks| - 1], chunks[|chunks| - 1];
      var before, pieces := PiecesOfChunks(init, countTokens), PiecesOf(last, countTokens);
      assert PiecesOfChunks(chunks, countTokens) == before + pieces;
      PiecesOfChunksConcat(init, countTokens);
      PiecesOfConcat(last, countTokens);
      ConcatAppend(before, pieces);
      assert chunks == init + [last];
      ConcatSnoc(init, last);
    }
  }

  /** Each piece over the budget is empty or a single line of one of the chunks. */
  lemma {:induction false} PiecesOfChunksBudget(chunks: seq<string>, countTokens: string -> nat, p: string)
    requires p in PiecesOfChunks(chunks, countTokens) && countTokens(p) > MaxTokens
    ensures p == "" || exists c :: c in chunks && p in SplitLines(c)
  {
    var init, last := chunks[..|chunks| - 1], chunks[|chunks| - 1];
    if p in PiecesOfChunks(init, countTokens) {
      PiecesOfChunksBudget(init, countTokens, p);
      assert forall c :: c in init ==> c in chunks;
    } else {
      assert p in PiecesOf(last, countTokens);
      PiecesOfSpec(last, countTokens);
      assert last in chunks;
    }
  }

  /**
   * `split_into_chunks` end to end: when the parts spell the code, the pieces spell it too,
   * without a blank lead before the first header.
   */
  lemma ChunksConcat(code: string, parts: seq<string>, countTokens: string -> nat)
    requires |parts| % 2 == 1 && Concat(parts) == code
    ensures |parts| > 1 && IsBlank(parts[0]) ==> Concat(Chunks(code, parts, countTokens)) == code[|parts[0]|..]
    ensures !(|parts| > 1 && IsBlank(parts[0])) ==> Concat(Chunks(code, parts, countTokens)) == code
  {
    HeaderChunksConcat(code, parts);
    PiecesOfChunksConcat(HeaderChunks(code, parts), countTokens);
  }

  /** `split_into_chunks`: group at headers, then keep or pack each chunk in turn. */
  method SplitIntoChunks(code: string, parts: seq<string>, countTokens: string -> nat) returns (final: seq<string>)
    requires |parts| % 2 == 1
    ensures final == Chunks(code, parts, countTokens)
  {
    var chunks := GroupAtHeaders(code, parts);
    final := PackChunks(chunks, countTokens);
  }

  /** The second loop of `split_into_chunks`: keep a chunk within budget, pack any other. */
  method PackChunks(chunks: seq<string>, countTokens: string -> nat) returns (final: seq<string>)
    ensures final == PiecesOfChunks(chunks, countTokens)
  {
    final := [];
    for k := 0 to |chunks|
      invariant final == PiecesOfChunks(chunks[..k], countTokens)
    {
      var chunk := chunks[k];
      PiecesOfChunksStep(chunks, k, countTokens);
      if countTokens(chunk) <= MaxTokens {
        final := final + [chunk];
      } else {
        var pieces := PackLines(SplitLines(chunk), countTokens);
        final := final + pieces;
      }
    }
    assert chunks[..|chunks|] == chunks;
  }
}
