/**
 * The OpenAI-compatible chat pipeline of src/models/chat/openai.rs: the provider
 * record and its accessors, the mapping to `Completion`, the display rendering,
 * the event-stream decoder, the text stream with its `<think>` markers, and
 * `collect`, which folds a record stream into one completion.
 */
module OpenAIChat {
  import opened Wrappers
  import opened Usages
  import opened Completions
  import opened Options
  import opened Strings
  import opened Accumulation

  datatype Content = Content(content: Option<string>, reasoningContent: Option<string>)

  /** One choice: `message` in single-shot replies, `delta` in streamed chunks. */
  datatype Choice = Choice(message: Option<Content>, delta: Option<Content>)

  /** A decoded provider record. */
  datatype Response = Response(choices: seq<Choice>, usage: Option<Usage>)

  // ---------------------------------------------------------------------------
  // The request guard of `api`

  /** `api` refuses to send anything when no endpoint is configured. */
  function RequireBaseUrl(options: OpenAIModelOptions): (r: Result<string, string>)
    ensures r.Err? <==> options.baseUrl.None?
    ensures r.Ok? ==> r.value == options.baseUrl.value
  {
    match options.baseUrl
    case None => Err("'base_url' is required")
    case Some(url) => Ok(url)
  }

  // ---------------------------------------------------------------------------
  // Accessors

  /** `message()`: the first choice's message, if there is a first choice. */
  function Message(r: Response): (m: Option<Content>)
    ensures m.Some? ==> r.choices != [] && m == r.choices[0].message
    ensures r.choices != [] ==> m == r.choices[0].message
  {
    if r.choices == [] then None else r.choices[0].message
  }

  /** `delta()` (and `into_delta()`, its by-value twin): the first choice's delta. */
  function Delta(r: Response): (d: Option<Content>)
    ensures d.Some? ==> r.choices != [] && d == r.choices[0].delta
    ensures r.choices != [] ==> d == r.choices[0].delta
  {
    if r.choices == [] then None else r.choices[0].delta
  }

  /**
   * `content()`: from the first choice, the message's content when a message is
   * present (even if that content is absent), otherwise the delta's.
   */
  function ContentOf(r: Response): (c: Option<string>)
    ensures r.choices == [] ==> c.None?
    ensures Message(r).Some? ==> c == Message(r).value.content
    ensures Message(r).None? && Delta(r).Some? ==> c == Delta(r).value.content
    ensures Message(r).None? && Delta(r).None? ==> c.None?
  {
    if r.choices != [] then
      match r.choices[0]
      case Choice(message, delta) =>
        if message.Some? then message.value.content
        else if delta.Some? then delta.value.content
        else None
    else None
  }

  /** `reasoning_content()`: the same choice rule as `content()`, for the reasoning text. */
  function ReasoningContentOf(r: Response): (c: Option<string>)
    ensures r.choices == [] ==> c.None?
    ensures Message(r).Some? ==> c == Message(r).value.reasoningContent
    ensures Message(r).None? && Delta(r).Some? ==> c == Delta(r).value.reasoningContent
    ensures Message(r).None? && Delta(r).None? ==> c.None?
  {
    if r.choices != [] then
      match r.choices[0]
      case Choice(message, delta) =>
        if message.Some? then message.value.reasoningContent
        else if delta.Some? then delta.value.reasoningContent
        else None
    else None
  }

  /** The two accessors never mix sources: both read the same content object. */
  lemma AccessorsReadOneSource(r: Response)
    ensures (ContentOf(r).None? && ReasoningContentOf(r).None?) ||
      exists k :: k in [Message(r), Delta(r)] && k.Some? &&
        ContentOf(r) == k.value.content && ReasoningContentOf(r) == k.value.reasoningContent
  {
    if Message(r).Some? {
      assert Message(r) in [Message(r), Delta(r)];
    } else if Delta(r).Some? {
      assert Delta(r) in [Message(r), Delta(r)];
    }
  }

  /** `From<Response> for Completion`: the accessors' values and the usage, unchanged. */
  function ToCompletion(r: Response): (c: Completion)
    ensures c.content == ContentOf(r)
    ensures c.reasoningContent == ReasoningContentOf(r)
    ensures c.usage == r.usage
  {
    Completion(ContentOf(r), ReasoningContentOf(r), r.usage)
  }

  /** `From<Stream<Response>> for Stream<Completion>`: each record mapped, in order. */
  function CompletionStream(rs: seq<Response>): (cs: seq<Completion>)
    ensures |cs| == |rs|
    ensures forall i :: 0 <= i < |rs| ==> cs[i] == ToCompletion(rs[i])
  {
    Map(rs, ToCompletion)
  }

  // ---------------------------------------------------------------------------
  // Display

  /** The reasoning text wrapped in think markers, or nothing. */
  function Think(reasoning: Option<string>): string
  {
    match reasoning
    case Some(t) => "<think>" + t + "</think>"
    case None => ""
  }

  /**
   * `Display for Response`: empty unless the first choice's message has content;
   * then the wrapped reasoning (if any) followed by that content.
   */
  function Display(r: Response): (s: string)
    ensures Message(r).None? || Message(r).value.content.None? ==> s == ""
  {
    match Message(r)
    case Some(Content(Some(content), reasoning)) => Think(reasoning) + content
    case _ => ""
  }

  /** Where the message has content, the display text is built from the accessors' values. */
  lemma DisplayFromAccessors(r: Response)
    requires Message(r).Some? && Message(r).value.content.Some?
    ensures Display(r) == Think(ReasoningContentOf(r)) + ContentOf(r).value
    ensures ReasoningContentOf(r).Some? ==>
      Display(r) == "<think>" + ReasoningContentOf(r).value + "</think>" + ContentOf(r).value
  {
  }

  /** The delta is never rendered: replacing it does not change the display text. */
  lemma DisplayIgnoresDelta(r: Response, delta: Option<Content>)
    requires r.choices != []
    ensures Display(r) == Display(r.(choices := [r.choices[0].(delta := delta)] + r.choices[1..]))
  {
  }

  // ---------------------------------------------------------------------------
  // Event-stream decoding

  /** One read from the HTTP body: a chunk of text, or a transport failure. */
  datatype ChunkRead = Chunk(text: string) | ReadError

  const DataPrefix: string := "data: "

  predicate IsData(line: string)
  {
    |line| >= |DataPrefix| && line[..|DataPrefix|] == DataPrefix
  }

  /** The text after the `data: ` prefix. */
  function Payload(line: string): string
    requires IsData(line)
  {
    line[|DataPrefix|..]
  }

  /** What decoding the fragments of one chunk gave, and whether the stream was broken off. */
  datatype Decoded = Decoded(records: seq<Response>, broken: bool)

  /** The fragments of one chunk, in order; a failed parse breaks off everything. */
  function DecodeLines(lines: seq<string>, parse: string -> Option<Response>): Decoded
    decreases |lines|
  {
    if lines == [] then Decoded([], false)
    else if !IsData(lines[0]) then DecodeLines(lines[1..], parse)
    else
      match parse(Payload(lines[0]))
      case None => Decoded([], true)
      case Some(r) =>
        var rest := DecodeLines(lines[1..], parse);
        Decoded([r] + rest.records, rest.broken)
  }

  /** The records the decoder yields, chunk by chunk, until the source ends or fails. */
  function DecodeReads(chunks: seq<ChunkRead>, parse: string -> Option<Response>): seq<Response>
    decreases |chunks|
  {
    if chunks == [] then []
    else
      match chunks[0]
      case ReadError => []
      case Chunk(text) =>
        var d := DecodeLines(Split(text), parse);
        if d.broken then d.records else d.records + DecodeReads(chunks[1..], parse)
  }

  /** The payloads of the `data: ` fragments, in order; other fragments contribute nothing. */
  function DataPayloads(lines: seq<string>): seq<string>
    decreases |lines|
  {
    if lines == [] then []
    else (if IsData(lines[0]) then [Payload(lines[0])] else []) + DataPayloads(lines[1..])
  }

  /** Every data payload across the chunks read before the source ends or fails. */
  function Payloads(chunks: seq<ChunkRead>): seq<string>
    decreases |chunks|
  {
    if chunks == [] then []
    else
      match chunks[0]
      case ReadError => []
      case Chunk(text) => DataPayloads(Split(text)) + Payloads(chunks[1..])
  }

  /**
   * The parses of the payloads up to, not including, the first one that fails:
   * every emitted record is the parse of the payload at its position, and if
   * anything is left over, the payload where it stopped did not parse.
   */
  function ParsedPrefix(ps: seq<string>, parse: string -> Option<Response>): (out: seq<Response>)
    ensures |out| <= |ps|
    ensures forall i :: 0 <= i < |out| ==> parse(ps[i]) == Some(out[i])
    ensures |out| < |ps| ==> parse(ps[|out|]).None?
    decreases |ps|
  {
    if ps == [] then []
    else
      match parse(ps[0])
      case None => []
      case Some(r) => [r] + ParsedPrefix(ps[1..], parse)
  }

  lemma {:induction false} ParsedPrefixAppend(xs: seq<string>, ys: seq<string>, parse: string -> Option<Response>)
    ensures ParsedPrefix(xs + ys, parse) ==
      if |ParsedPrefix(xs, parse)| == |xs| then ParsedPrefix(xs, parse) + ParsedPrefix(ys, parse)
      else ParsedPrefix(xs, parse)
    decreases |xs|
  {
    if xs == [] {
      assert xs + ys == ys;
    } else {
      assert (xs + ys)[0] == xs[0];
      assert (xs + ys)[1..] == xs[1..] + ys;
      match parse(xs[0])
      case None =>
      case Some(r) =>
        ParsedPrefixAppend(xs[1..], ys, parse);
    }
  }

  /** Within one chunk: the parsed prefix of its payloads, broken off iff some payload failed. */
  lemma {:induction false} DecodeLinesIsParsedPrefix(lines: seq<string>, parse: string -> Option<Response>)
    ensures DecodeLines(lines, parse) ==
      Decoded(ParsedPrefix(DataPayloads(lines), parse),
              |ParsedPrefix(DataPayloads(lines), parse)| < |DataPayloads(lines)|)
    decreases |lines|
  {
    if lines != [] {
      DecodeLinesIsParsedPrefix(lines[1..], parse);
      if IsData(lines[0]) {
        var ps := DataPayloads(lines);
        assert ps == [Payload(lines[0])] + DataPayloads(lines[1..]);
        assert ps[1..] == DataPayloads(lines[1..]);
      } else {
        assert DataPayloads(lines) == DataPayloads(lines[1..]);
      }
    }
  }

  /**
   * The decoder's output is the in-order parses of all `data: ` payloads across
   * the chunks, cut off at the first payload that fails to parse.
   */
  lemma {:induction false} DecodeIsParsedPrefixOfPayloads(chunks: seq<ChunkRead>, parse: string -> Option<Response>)
    ensures DecodeReads(chunks, parse) == ParsedPrefix(Payloads(chunks), parse)
    decreases |chunks|
  {
    if chunks != [] && chunks[0].Chunk? {
      var lines := Split(chunks[0].text);
      DecodeLinesIsParsedPrefix(lines, parse);
      DecodeIsParsedPrefixOfPayloads(chunks[1..], parse);
      ParsedPrefixAppend(DataPayloads(lines), Payloads(chunks[1..]), parse);
    }
  }

  /** Once a payload has failed to parse, nothing read later is emitted. */
  lemma StopsForGoodAtFirstFailure(chunks: seq<ChunkRead>, later: seq<ChunkRead>, parse: string -> Option<Response>)
    requires |ParsedPrefix(Payloads(chunks), parse)| < |Payloads(chunks)|
    ensures DecodeReads(chunks + later, parse) == DecodeReads(chunks, parse)
  {
    PayloadsAppend(chunks, later);
    DecodeIsParsedPrefixOfPayloads(chunks + later, parse);
    DecodeIsParsedPrefixOfPayloads(chunks, parse);
    ParsedPrefixAppend(Payloads(chunks), Payloads(later), parse);
  }

  lemma {:induction false} PayloadsAppend(chunks: seq<ChunkRead>, later: seq<ChunkRead>)
    ensures (forall i :: 0 <= i < |chunks| ==> chunks[i].Chunk?) ==>
      Payloads(chunks + later) == Payloads(chunks) + Payloads(later)
    ensures (exists i :: 0 <= i < |chunks| && chunks[i].ReadError?) ==>
      Payloads(chunks + later) == Payloads(chunks)
    decreases |chunks|
  {
    if chunks == [] {
      assert chunks + later == later;
    } else {
      assert (chunks + later)[0] == chunks[0];
      assert (chunks + later)[1..] == chunks[1..] + later;
      PayloadsAppend(chunks[1..], later);
      match chunks[0] {
        case ReadError =>
        case Chunk(text) =>
          var head := DataPayloads(Split(text));
          assert Payloads(chunks + later) == head + Payloads(chunks[1..] + later);
          if exists i :: 0 <= i < |chunks| && chunks[i].ReadError? {
            var i :| 0 <= i < |chunks| && chunks[i].ReadError?;
            assert chunks[1..][i - 1] == chunks[i];
          }
          if forall i :: 0 <= i < |chunks| ==> chunks[i].Chunk? {
            forall i | 0 <= i < |chunks[1..]| ensures chunks[1..][i].Chunk? {
              assert chunks[1..][i] == chunks[i + 1];
            }
            AppendAssoc(head, Payloads(chunks[1..]), Payloads(later));
          }
      }
    }
  }

  /** What is left to emit after a chunk's fragments gave `d`, when `after` is what later chunks give. */
  function Continue(d: Decoded, after: seq<Response>): seq<Response>
  {
    if d.broken then d.records else d.records + after
  }

  lemma DecodeReadsAt(chunks: seq<ChunkRead>, k: nat, parse: string -> Option<Response>)
    requires k < |chunks| && chunks[k].Chunk?
    ensures DecodeReads(chunks[k..], parse) ==
      Continue(DecodeLines(Split(chunks[k].text), parse), DecodeReads(chunks[k + 1..], parse))
  {
    assert chunks[k..][0] == chunks[k];
    assert chunks[k..][1..] == chunks[k + 1..];
  }

  lemma DecodeLinesAt(lines: seq<string>, j: nat, parse: string -> Option<Response>)
    requires j < |lines|
    ensures DecodeLines(lines[j..], parse) ==
      if !IsData(lines[j]) then DecodeLines(lines[j + 1..], parse)
      else match parse(Payload(lines[j]))
        case None => Decoded([], true)
        case Some(r) => Decoded([r] + DecodeLines(lines[j + 1..], parse).records, DecodeLines(lines[j + 1..], parse).broken)
  {
    assert lines[j..][0] == lines[j];
    assert lines[j..][1..] == lines[j + 1..];
  }

  /** `d` with `records` emitted in front of it. */
  function Prepend(records: seq<Response>, d: Decoded): Decoded
  {
    Decoded(records + d.records, d.broken)
  }

  /**
   * The inner loop of `stream` over one chunk's fragments: skip fragments without
   * the `data: ` prefix, emit each successful parse, and at the first failed
   * parse report that the whole stream ends.
   */
  method DecodeChunk(lines: seq<string>, parse: string -> Option<Response>) returns (d: Decoded)
    ensures d == DecodeLines(lines, parse)
  {
    var records := [];
    for j := 0 to |lines|
      invariant DecodeLines(lines, parse) == Prepend(records, DecodeLines(lines[j..], parse))
    {
      DecodeLinesAt(lines, j, parse);
      var line := lines[j];
      if IsData(line) {
        match parse(Payload(line)) {
          case Some(record) =>
            assert records + ([record] + DecodeLines(lines[j + 1..], parse).records) == (records + [record]) + DecodeLines(lines[j + 1..], parse).records;
            records := records + [record];
          case None =>
            return Decoded(records, true);
        }
      }
    }
    assert lines[|lines|..] == [];
    d := Decoded(records, false);
  }

  /**
   * The outer loop of `stream`: for each chunk until the source ends or fails,
   * split it on blank lines and decode its fragments; after a failed parse, end
   * the whole stream.
   */
  method Decode(chunks: seq<ChunkRead>, parse: string -> Option<Response>) returns (out: seq<Response>)
    ensures out == DecodeReads(chunks, parse)
  {
    out := [];
    var k := 0;
    while k < |chunks| && chunks[k].Chunk?
      invariant 0 <= k <= |chunks|
      invariant DecodeReads(chunks, parse) == out + DecodeReads(chunks[k..], parse)
    {
      var lines := Split(chunks[k].text);
      DecodeReadsAt(chunks, k, parse);
      var d := DecodeChunk(lines, parse);
      out := out + d.records;
      if d.broken {
        return;
      }
      k := k + 1;
    }
    if k < |chunks| {
      assert chunks[k..][0] == chunks[k];
    }
  }

  /** Fragments other than `data: ` ones, such as comments and heartbeats, are skipped. */
  lemma NonDataChunkAddsNothing(chunks: seq<ChunkRead>, text: string, parse: string -> Option<Response>)
    requires forall i :: 0 <= i < |chunks| ==> chunks[i].Chunk?
    requires forall k :: 0 <= k < |Split(text)| ==> !IsData(Split(text)[k])
    ensures DecodeReads(chunks + [Chunk(text)], parse) == DecodeReads(chunks, parse)
  {
    NoDataPayloads(Split(text));
    PayloadsAppend(chunks, [Chunk(text)]);
    assert Payloads([Chunk(text)]) == DataPayloads(Split(text)) + Payloads([]);
    assert Payloads(chunks + [Chunk(text)]) == Payloads(chunks);
    DecodeIsParsedPrefixOfPayloads(chunks + [Chunk(text)], parse);
    DecodeIsParsedPrefixOfPayloads(chunks, parse);
  }

  lemma {:induction false} NoDataPayloads(lines: seq<string>)
    requires forall k :: 0 <= k < |lines| ==> !IsData(lines[k])
    ensures DataPayloads(lines) == []
    decreases |lines|
  {
    if lines != [] {
      assert forall k :: 0 <= k < |lines[1..]| ==> lines[1..][k] == lines[k + 1];
      NoDataPayloads(lines[1..]);
    }
  }

  /** A chunk holding one `data: ` record and its terminating blank line yields exactly that record. */
  lemma OneRecordChunk(json: string, parse: string -> Option<Response>)
    requires NoSeparator(json) && (json == [] || json[|json| - 1] != '\n')
    requires parse(json).Some?
    ensures DecodeReads([Chunk(DataPrefix + json + Separator)], parse) == [parse(json).value]
  {
    var line := DataPrefix + json;
    assert NoSeparator(line) by {
      forall i | 0 <= i < |line| - 1 ensures !(line[i] == '\n' && line[i + 1] == '\n') {
        if i >= |DataPrefix| {
          assert line[i] == json[i - |DataPrefix|] && line[i + 1] == json[i + 1 - |DataPrefix|];
        } else {
          assert line[i] == DataPrefix[i];
        }
      }
    }
    assert line[|line| - 1] != '\n' by {
      if json == [] { assert line == DataPrefix; } else { assert line[|line| - 1] == json[|json| - 1]; }
    }
    SplitAfterCleanPiece(line, "");
    assert line + Separator + "" == DataPrefix + json + Separator;
    assert Split(DataPrefix + json + Separator) == [line, ""];
    assert IsData(line) && Payload(line) == json;
    assert !IsData("");
    assert [line, ""][1..] == [""];
    assert DecodeLines([""], parse) == Decoded([], false);
    assert DecodeLines([line, ""], parse) == Decoded([parse(json).value], false);
  }

  /**
   * A record cut by a read boundary after its `data: ` prefix ends the whole
   * stream: the first half fails to parse, so nothing from the later reads is
   * emitted, the rest of the record and any valid records after it included.
   */
  lemma SplitRecordEndsStream(head: string, later: seq<ChunkRead>, parse: string -> Option<Response>)
    requires NoSeparator(head)
    requires parse(head).None?
    ensures DecodeReads([Chunk(DataPrefix + head)] + later, parse) == []
  {
    var line := DataPrefix + head;
    assert NoSeparator(line) by {
      forall i | 0 <= i < |line| - 1 ensures !(line[i] == '\n' && line[i + 1] == '\n') {
        if i >= |DataPrefix| {
          assert line[i] == head[i - |DataPrefix|] && line[i + 1] == head[i + 1 - |DataPrefix|];
        } else {
          assert line[i] == DataPrefix[i];
        }
      }
    }
    SplitClean(line);
    assert IsData(line) && Payload(line) == head;
    assert ([Chunk(line)] + later)[0] == Chunk(line);
  }

  /** For instance, `data: {` then `}` plus blank line, then a whole record: nothing is emitted. */
  lemma SplitRecordExample(parse: string -> Option<Response>)
    requires parse("{").None?
    ensures DecodeReads([Chunk("data: {"), Chunk("}\n\n"), Chunk("data: {}\n\n")], parse) == []
  {
    SplitRecordEndsStream("{", [Chunk("}\n\n"), Chunk("data: {}\n\n")], parse);
    assert DataPrefix + "{" == "data: {";
    assert [Chunk("data: {")] + [Chunk("}\n\n"), Chunk("data: {}\n\n")] == [Chunk("data: {"), Chunk("}\n\n"), Chunk("data: {}\n\n")];
  }

  // ---------------------------------------------------------------------------
  // Text stream

  /** The markers that open and close a run of reasoning text. */
  const ThinkOpen: string := "<think>"
  const ThinkClose: string := "</think>"

  /** A text fragment of the stream: reasoning text or answer text. */
  datatype Fragment = Reasoning(text: string) | Answer(text: string)

  function ReasoningPart(d: Content): seq<Fragment>
  {
    match d.reasoningContent case Some(t) => [Reasoning(t)] case None => []
  }

  function AnswerPart(d: Content): seq<Fragment>
  {
    match d.content case Some(t) => [Answer(t)] case None => []
  }

  /** One record's fragments: its reasoning before its answer text. */
  function RecordFragments(d: Content): (fs: seq<Fragment>)
    ensures |fs| <= 2
  {
    ReasoningPart(d) + AnswerPart(d)
  }

  /** The fragments of the records, in order; a record without a delta gives none. */
  function DeltaFragments(rs: seq<Response>): seq<Fragment>
    decreases |rs|
  {
    if rs == [] then []
    else DeltaFragments(rs[..|rs| - 1]) + (match Delta(rs[|rs| - 1]) case Some(d) => RecordFragments(d) case None => [])
  }

  /** The position of the first record without a delta, or the length if there is none. */
  function TextEnd(rs: seq<Response>): (n: nat)
    ensures n <= |rs|
    ensures forall i :: 0 <= i < n ==> Delta(rs[i]).Some?
    ensures n < |rs| ==> Delta(rs[n]).None?
    decreases |rs|
  {
    if rs == [] then 0
    else if Delta(rs[0]).None? then 0
    else
      var n := 1 + TextEnd(rs[1..]);
      assert forall i :: 1 <= i < n ==> rs[i] == rs[1..][i - 1];
      n
  }

  /** A record with a delta at or before the end lies strictly before it. */
  lemma TextEndPast(rs: seq<Response>, i: nat)
    requires i <= TextEnd(rs) && i < |rs| && Delta(rs[i]).Some?
    ensures i < TextEnd(rs)
  {
  }

  /** The end is the first position, not past it, that has no delta. */
  lemma TextEndStops(rs: seq<Response>, i: nat)
    requires i <= TextEnd(rs)
    requires i == |rs| || Delta(rs[i]).None?
    ensures TextEnd(rs) == i
  {
  }

  /** The fragments the text stream renders: those of the records before the first without a delta. */
  function TextFragments(rs: seq<Response>): seq<Fragment>
  {
    DeltaFragments(rs[..TextEnd(rs)])
  }

  /**
   * What one fragment renders to, given the fragment before it: reasoning opens
   * with `<think>` unless the previous fragment was reasoning too; answer text
   * is preceded by `</think>` exactly when the previous fragment was reasoning.
   */
  function Piece(previous: Option<Fragment>, f: Fragment): seq<string>
  {
    var afterReasoning := previous.Some? && previous.value.Reasoning?;
    match f
    case Reasoning(t) => (if afterReasoning then [] else [ThinkOpen]) + [t]
    case Answer(t) => (if afterReasoning then [ThinkClose] else []) + [t]
  }

  /** The rendering of a fragment sequence, each fragment placed after its predecessor's. */
  function Render(fs: seq<Fragment>): seq<string>
    decreases |fs|
  {
    if fs == [] then []
    else Render(fs[..|fs| - 1]) + Piece(if |fs| >= 2 then Some(fs[|fs| - 2]) else None, fs[|fs| - 1])
  }

  function Last(fs: seq<Fragment>): Option<Fragment>
  {
    if fs == [] then None else Some(fs[|fs| - 1])
  }

  lemma RenderSnoc(fs: seq<Fragment>, f: Fragment)
    ensures Render(fs + [f]) == Render(fs) + Piece(Last(fs), f)
  {
    assert (fs + [f])[..|fs|] == fs;
    if |fs| >= 1 { assert (fs + [f])[|fs| - 1] == fs[|fs| - 1]; }
  }

  lemma DeltaFragmentsAt(rs: seq<Response>, i: nat)
    requires i < |rs| && Delta(rs[i]).Some?
    ensures DeltaFragments(rs[..i + 1]) == DeltaFragments(rs[..i]) + RecordFragments(Delta(rs[i]).value)
  {
    assert rs[..i + 1][..i] == rs[..i];
  }

  predicate EndsInReasoning(fs: seq<Fragment>)
  {
    fs != [] && fs[|fs| - 1].Reasoning?
  }

  /** The strings a record's reasoning adds, given whether a reasoning run is open, and whether one is open after it. */
  function EmitReasoning(reasoning: bool, d: Content): (seq<string>, bool)
  {
    match d.reasoningContent
    case Some(t) => ((if reasoning then [] else [ThinkOpen]) + [t], true)
    case None => ([], reasoning)
  }

  /** The strings a record's answer text adds, likewise. */
  function EmitAnswer(reasoning: bool, d: Content): (seq<string>, bool)
  {
    match d.content
    case Some(t) => ((if reasoning then [ThinkClose] else []) + [t], false)
    case None => ([], reasoning)
  }

  /** The strings one record adds: its reasoning's, then its answer's. */
  function RecordText(reasoning: bool, d: Content): (seq<string>, bool)
  {
    var (first, open) := EmitReasoning(reasoning, d);
    var (second, open') := EmitAnswer(open, d);
    (first + second, open')
  }

  lemma RecordTextSplit(reasoning: bool, d: Content)
    ensures RecordText(reasoning, d).0 == EmitReasoning(reasoning, d).0 + EmitAnswer(EmitReasoning(reasoning, d).1, d).0
    ensures RecordText(reasoning, d).1 == EmitAnswer(EmitReasoning(reasoning, d).1, d).1
  {
  }

  /** Rendering a record's reasoning fragment after `fs` adds what the flag machine emits for it. */
  lemma ReasoningStep(fs: seq<Fragment>, d: Content)
    ensures Render(fs + ReasoningPart(d)) == Render(fs) + EmitReasoning(EndsInReasoning(fs), d).0
    ensures EndsInReasoning(fs + ReasoningPart(d)) == EmitReasoning(EndsInReasoning(fs), d).1
  {
    match d.reasoningContent {
      case Some(t) =>
        RenderSnoc(fs, Reasoning(t));
      case None =>
        assert fs + ReasoningPart(d) == fs;
    }
  }

  /** Rendering a record's answer fragment after `fs` adds what the flag machine emits for it. */
  lemma AnswerStep(fs: seq<Fragment>, d: Content)
    ensures Render(fs + AnswerPart(d)) == Render(fs) + EmitAnswer(EndsInReasoning(fs), d).0
    ensures EndsInReasoning(fs + AnswerPart(d)) == EmitAnswer(EndsInReasoning(fs), d).1
  {
    match d.content {
      case Some(t) =>
        RenderSnoc(fs, Answer(t));
      case None =>
        assert fs + AnswerPart(d) == fs;
    }
  }

  lemma AppendAssoc<T>(a: seq<T>, b: seq<T>, c: seq<T>)
    ensures a + (b + c) == (a + b) + c
  {
  }

  /** Rendering a record's fragments after `fs` adds exactly what the flag machine emits for it. */
  lemma RecordStep(fs: seq<Fragment>, d: Content)
    ensures Render(fs + RecordFragments(d)) == Render(fs) + RecordText(EndsInReasoning(fs), d).0
    ensures EndsInReasoning(fs + RecordFragments(d)) == RecordText(EndsInReasoning(fs), d).1
  {
    var mid := fs + ReasoningPart(d);
    var all := fs + RecordFragments(d);
    var (first, opening) := EmitReasoning(EndsInReasoning(fs), d);
    assert all == mid + AnswerPart(d) by {
      AppendAssoc(fs, ReasoningPart(d), AnswerPart(d));
    }
    assert Render(mid) == Render(fs) + first && EndsInReasoning(mid) == opening by {
      ReasoningStep(fs, d);
    }
    assert Render(all) == Render(mid) + EmitAnswer(opening, d).0 && EndsInReasoning(all) == EmitAnswer(opening, d).1 by {
      AnswerStep(mid, d);
    }
    assert RecordText(EndsInReasoning(fs), d) == (first + EmitAnswer(opening, d).0, EmitAnswer(opening, d).1) by {
      RecordTextSplit(EndsInReasoning(fs), d);
    }
    AppendAssoc(Render(fs), first, EmitAnswer(opening, d).0);
  }

  /**
   * The body of the text stream's loop for one delta: the strings it yields, in
   * order, and the new value of the `reasoning` flag.
   */
  method EmitRecord(reasoning: bool, delta: Content) returns (pieces: seq<string>, isOpen: bool)
    ensures (pieces, isOpen) == RecordText(reasoning, delta)
  {
    pieces := [];
    isOpen := reasoning;
    if delta.reasoningContent.Some? {
      if !isOpen {
        pieces := pieces + [ThinkOpen];
        isOpen := true;
      }
      pieces := pieces + [delta.reasoningContent.value];
      assert pieces == (if reasoning then [] else [ThinkOpen]) + [delta.reasoningContent.value];
    }
    ghost var first, opening := pieces, isOpen;
    assert first == EmitReasoning(reasoning, delta).0 && opening == EmitReasoning(reasoning, delta).1;
    if delta.content.Some? {
      if isOpen {
        pieces := pieces + [ThinkClose];
        isOpen := false;
      }
      pieces := pieces + [delta.content.value];
      assert pieces == first + ((if opening then [ThinkClose] else []) + [delta.content.value]);
    }
    assert pieces == first + EmitAnswer(opening, delta).0 && isOpen == EmitAnswer(opening, delta).1;
  }

  /**
   * `From<Stream<Response>> for Stream<String>`: a loop over the records with a
   * `reasoning` flag, which stops at the first record without a delta.
   */
  method TextStream(rs: seq<Response>) returns (out: seq<string>)
    ensures out == Render(TextFragments(rs))
  {
    var reasoning := false;
    out := [];
    var i := 0;
    ghost var done: seq<Fragment> := [];
    assert rs[..0] == [];
    while i < |rs|
      invariant 0 <= i <= |rs|
      invariant i <= TextEnd(rs)
      invariant done == DeltaFragments(rs[..i])
      invariant out == Render(done)
      invariant reasoning == EndsInReasoning(done)
    {
      var next := Delta(rs[i]);
      if next.None? {
        TextEndStops(rs, i);
        break;
      }
      TextEndPast(rs, i);
      var delta := next.value;
      var pieces;
      pieces, reasoning := EmitRecord(reasoning, delta);
      RecordStep(done, delta);
      DeltaFragmentsAt(rs, i);
      out := out + pieces;
      done := done + RecordFragments(delta);
      i := i + 1;
    }
    if i == |rs| {
      TextEndStops(rs, i);
    }
  }

  /** Records after the first one without a delta, such as a usage-only record, are never rendered. */
  lemma TextStopsAtMissingDelta(rs: seq<Response>, r: Response, later: seq<Response>)
    requires forall i :: 0 <= i < |rs| ==> Delta(rs[i]).Some?
    requires Delta(r).None?
    ensures TextFragments(rs + [r] + later) == TextFragments(rs)
  {
    var all := rs + [r] + later;
    assert forall i :: 0 <= i < |rs| ==> all[i] == rs[i];
    assert all[|rs|] == r;
    assert TextEnd(all) == |rs|;
    assert all[..|rs|] == rs;
    assert TextEnd(rs) == |rs|;
    assert rs[..|rs|] == rs;
  }

  /** A stream that ends in reasoning is never closed: its last string is that reasoning text. */
  lemma NoClosingMarkerAtEnd(fs: seq<Fragment>)
    requires fs != [] && fs[|fs| - 1].Reasoning?
    ensures Render(fs) != [] && Render(fs)[|Render(fs)| - 1] == fs[|fs| - 1].text
  {
  }

  /** A record carrying only reasoning text and one carrying only answer text. */
  function ReasoningRecord(why: string): Response
  {
    Response([Choice(None, Some(Content(None, Some(why))))], None)
  }

  function AnswerRecord(answer: string): Response
  {
    Response([Choice(None, Some(Content(Some(answer), None)))], None)
  }

  /** A reasoning record followed by an answer record renders as think-wrapped reasoning, then the answer. */
  lemma ReasoningThenAnswer(why: string, answer: string)
    ensures Render(TextFragments([ReasoningRecord(why), AnswerRecord(answer)])) == ["<think>", why, "</think>", answer]
  {
    var rs := [ReasoningRecord(why), AnswerRecord(answer)];
    ReasoningThenAnswerFragments(why, answer);
    var fs := [Reasoning(why), Answer(answer)];
    assert fs[..1] == [Reasoning(why)];
    assert Render([Reasoning(why)]) == ["<think>", why];
    assert Render(fs) == Render(fs[..1]) + Piece(Some(Reasoning(why)), Answer(answer));
  }

  lemma ReasoningThenAnswerFragments(why: string, answer: string)
    ensures TextFragments([ReasoningRecord(why), AnswerRecord(answer)]) == [Reasoning(why), Answer(answer)]
  {
    var rs := [ReasoningRecord(why), AnswerRecord(answer)];
    assert TextEnd(rs[1..]) == 1;
    assert TextEnd(rs) == 2;
    assert rs[..2] == rs;
    assert rs[..1] == [rs[0]];
    assert [rs[0]][..0] == [];
    assert RecordFragments(Content(None, Some(why))) == [Reasoning(why)];
    assert RecordFragments(Content(Some(answer), None)) == [Answer(answer)];
    assert DeltaFragments([rs[0]]) == [Reasoning(why)];
    assert DeltaFragments(rs) == DeltaFragments(rs[..1]) + [Answer(answer)];
  }

  // ---------------------------------------------------------------------------
  // collect

  /** The record ends the fold: it has neither a delta nor usage. */
  predicate EndsCollect(r: Response)
  {
    Delta(r).None? && r.usage.None?
  }

  /** The position of the first record that ends the fold, or the length if there is none. */
  function CollectEnd(rs: seq<Response>): (n: nat)
    ensures n <= |rs|
    ensures forall i :: 0 <= i < n ==> !EndsCollect(rs[i])
    ensures n < |rs| ==> EndsCollect(rs[n])
    decreases |rs|
  {
    if rs == [] then 0
    else if EndsCollect(rs[0]) then 0
    else
      var n := 1 + CollectEnd(rs[1..]);
      assert forall i :: 1 <= i < n ==> rs[i] == rs[1..][i - 1];
      n
  }

  /** The delta's answer text, if the record has a delta and the delta has one. */
  function DeltaContent(r: Response): Option<string>
  {
    match Delta(r) case Some(d) => d.content case None => None
  }

  /** The delta's reasoning text, likewise. */
  function DeltaReasoning(r: Response): Option<string>
  {
    match Delta(r) case Some(d) => d.reasoningContent case None => None
  }

  function UsageOf(r: Response): Option<Usage>
  {
    r.usage
  }

  /**
   * What `collect` promises: over the records before the first that has neither
   * delta nor usage, the in-order concatenations of the delta texts and the last
   * usage reported.
   */
  function Collected(rs: seq<Response>): Completion
  {
    var taken := rs[..CollectEnd(rs)];
    Completion(ConcatSome(Map(taken, DeltaContent)), ConcatSome(Map(taken, DeltaReasoning)), LastSome(Map(taken, UsageOf)))
  }

  /** The three accumulators after the first `i` records. */
  function ContentSoFar(rs: seq<Response>, i: nat): Option<string>
    requires i <= |rs|
  {
    ConcatSome(Map(rs[..i], DeltaContent))
  }

  function ReasoningSoFar(rs: seq<Response>, i: nat): Option<string>
    requires i <= |rs|
  {
    ConcatSome(Map(rs[..i], DeltaReasoning))
  }

  function UsageSoFar(rs: seq<Response>, i: nat): Option<Usage>
    requires i <= |rs|
  {
    LastSome(Map(rs[..i], UsageOf))
  }

  /** One more record appends its delta texts and overwrites the usage when it reports one. */
  lemma CollectStep(rs: seq<Response>, i: nat)
    requires i < |rs|
    ensures ContentSoFar(rs, i + 1) == Append(ContentSoFar(rs, i), DeltaContent(rs[i]))
    ensures ReasoningSoFar(rs, i + 1) == Append(ReasoningSoFar(rs, i), DeltaReasoning(rs[i]))
    ensures UsageSoFar(rs, i + 1) == if rs[i].usage.Some? then rs[i].usage else UsageSoFar(rs, i)
  {
    assert rs[..i + 1] == rs[..i] + [rs[i]];
    MapSnoc(rs[..i], rs[i], DeltaContent);
    MapSnoc(rs[..i], rs[i], DeltaReasoning);
    MapSnoc(rs[..i], rs[i], UsageOf);
    ConcatSomeSnoc(Map(rs[..i], DeltaContent), DeltaContent(rs[i]));
    ConcatSomeSnoc(Map(rs[..i], DeltaReasoning), DeltaReasoning(rs[i]));
    LastSomeSnoc(Map(rs[..i], UsageOf), rs[i].usage);
  }

  lemma CollectEndPast(rs: seq<Response>, i: nat)
    requires i <= CollectEnd(rs) && i < |rs| && !EndsCollect(rs[i])
    ensures i < CollectEnd(rs)
  {
  }

  lemma CollectEndStops(rs: seq<Response>, i: nat)
    requires i <= CollectEnd(rs)
    requires i == |rs| || EndsCollect(rs[i])
    ensures CollectEnd(rs) == i
  {
  }

  /** `Stream<Response>::collect`: a loop updating three optional accumulators. */
  method Collect(rs: seq<Response>) returns (c: Completion)
    ensures c == Collected(rs)
  {
    var contentCompleted: Option<string> := None;
    var reasoningContentCompleted: Option<string> := None;
    var usageCompleted: Option<Usage> := None;
    var i := 0;
    while i < |rs|
      invariant 0 <= i <= |rs|
      invariant i <= CollectEnd(rs)
      invariant contentCompleted == ContentSoFar(rs, i)
      invariant reasoningContentCompleted == ReasoningSoFar(rs, i)
      invariant usageCompleted == UsageSoFar(rs, i)
    {
      var item := rs[i];
      CollectStep(rs, i);
      match Delta(item) {
        case Some(Content(content, reasoningContent)) =>
          if content.Some? {
            contentCompleted := Some(contentCompleted.GetOr("") + content.value);
          }
          if reasoningContent.Some? {
            reasoningContentCompleted := Some(reasoningContentCompleted.GetOr("") + reasoningContent.value);
          }
        case None =>
          if item.usage.None? {
            CollectEndStops(rs, i);
            break;
          }
      }
      CollectEndPast(rs, i);
      if item.usage.Some? {
        usageCompleted := item.usage;
      }
      i := i + 1;
    }
    if i == |rs| {
      CollectEndStops(rs, i);
    }
    c := Completion(contentCompleted, reasoningContentCompleted, usageCompleted);
  }

  /**
   * The collected texts: each is the in-order concatenation of the delta
   * fragments before termination, and absent exactly when no fragment appeared.
   */
  lemma CollectedTexts(rs: seq<Response>)
    ensures var taken := rs[..CollectEnd(rs)];
      && Collected(rs).content == (if Somes(Map(taken, DeltaContent)) == [] then None else Some(Concat(Somes(Map(taken, DeltaContent)))))
      && Collected(rs).reasoningContent == (if Somes(Map(taken, DeltaReasoning)) == [] then None else Some(Concat(Somes(Map(taken, DeltaReasoning)))))
  {
    var taken := rs[..CollectEnd(rs)];
    ConcatSomeIsConcatOfSomes(Map(taken, DeltaContent));
    ConcatSomeIsConcatOfSomes(Map(taken, DeltaReasoning));
  }

  /** The collected usage is the last one reported before termination, and absent only if none was. */
  lemma CollectedUsage(rs: seq<Response>)
    ensures Collected(rs).usage.None? <==> forall i :: 0 <= i < CollectEnd(rs) ==> rs[i].usage.None?
    ensures Collected(rs).usage.Some? ==>
      exists i :: 0 <= i < CollectEnd(rs) && rs[i].usage == Collected(rs).usage &&
        forall j :: i < j < CollectEnd(rs) ==> rs[j].usage.None?
  {
    var taken := rs[..CollectEnd(rs)];
    var us := Map(taken, UsageOf);
    LastSomeIsLastWrite(us);
    assert forall i :: 0 <= i < CollectEnd(rs) ==> us[i] == rs[i].usage;
  }

  /** A usage-only record (no delta) is absorbed; the fold goes on past it. */
  lemma UsageOnlyRecordIsAbsorbed(rs: seq<Response>, u: Usage, later: seq<Response>)
    requires forall i :: 0 <= i < |rs| ==> !EndsCollect(rs[i])
    ensures CollectEnd(rs + [Response([], Some(u))] + later) == |rs| + 1 + CollectEnd(later)
  {
    var all := rs + [Response([], Some(u))] + later;
    CollectEndAppend(rs + [Response([], Some(u))], later);
  }

  lemma {:induction false} CollectEndAppend(rs: seq<Response>, later: seq<Response>)
    requires forall i :: 0 <= i < |rs| ==> !EndsCollect(rs[i])
    ensures CollectEnd(rs + later) == |rs| + CollectEnd(later)
    decreases |rs|
  {
    if rs == [] {
      assert rs + later == later;
    } else {
      assert (rs + later)[1..] == rs[1..] + later;
      assert (rs + later)[0] == rs[0];
      assert forall i :: 0 <= i < |rs[1..]| ==> rs[1..][i] == rs[i + 1];
      CollectEndAppend(rs[1..], later);
    }
  }

  /** Two answer records and a usage-only record collect into the joined answer with that usage. */
  lemma CollectExample(u: Usage)
    ensures Collected([AnswerRecord("He"), AnswerRecord("llo"), Response([], Some(u))]) == Completion(Some("Hello"), None, Some(u))
  {
    var rs := [AnswerRecord("He"), AnswerRecord("llo"), Response([], Some(u))];
    assert !EndsCollect(rs[0]) && !EndsCollect(rs[1]) && !EndsCollect(rs[2]);
    assert CollectEnd(rs) == 3;
    assert rs[..0] == [] && rs[..3] == rs;
    CollectStep(rs, 0);
    assert "" + "He" == "He";
    assert ContentSoFar(rs, 1) == Some("He");
    CollectStep(rs, 1);
    assert "He" + "llo" == "Hello";
    assert ContentSoFar(rs, 2) == Some("Hello");
    CollectStep(rs, 2);
  }
}
