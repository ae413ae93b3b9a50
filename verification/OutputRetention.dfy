/** The head/tail window that output retention keeps of an unbounded byte stream. */
module OutputRetention {
  import opened Wrappers
  import opened Utf8

  type Chunk = Bytes

  datatype Strategy = KeepHead | KeepTail | KeepBoth

  /** When the whole stream is copied to a blob, if a writer was given at all. */
  datatype Spill = NoWriter | Always | OnTruncate

  const MAX_SAFE_INTEGER: int := 0x1F_FFFF_FFFF_FFFF

  datatype Config = Config(maxBytes: nat, strategy: Strategy, spill: Spill) {
    function HeadLimit(): nat {
      match strategy case KeepHead => maxBytes case KeepBoth => maxBytes / 2 case KeepTail => 0
    }

    function TailLimit(): nat {
      match strategy case KeepTail => maxBytes case KeepBoth => maxBytes - maxBytes / 2 case KeepHead => 0
    }
  }

  datatype Result = Result(
    preview: Text,
    bytesSeen: nat,
    bytesRetained: nat,
    truncated: bool,
    digestOf: Bytes,            // the bytes whose SHA-256 is reported
    blobRef: Option<string>,
    blobError: Option<string>)

  // ---------------------------------------------------------------- specification

  function Flatten(chunks: seq<Chunk>): Bytes {
    if chunks == [] then [] else chunks[0] + Flatten(chunks[1..])
  }

  function Prefix(b: Bytes, n: nat): Bytes { if |b| <= n then b else b[..n] }

  function Suffix(b: Bytes, n: nat): Bytes { if |b| <= n then b else b[|b| - n..] }

  /** An empty reference or message is left out of a result. */
  function Truthy(s: Option<string>): Option<string> { if s == Some("") then None else s }

  /** What a retention of this configuration keeps of `stream`. */
  function Retained(config: Config, stream: Bytes): Bytes {
    if |stream| <= config.maxBytes then stream
    else Prefix(stream, config.HeadLimit()) + Suffix(stream, config.TailLimit())
  }

  /** `shown` is the preview of `stream`: the strict decodings of the retained windows. */
  ghost predicate Previews(config: Config, stream: Bytes, shown: Text) {
    var head, tail := Prefix(stream, config.HeadLimit()), Suffix(stream, config.TailLimit());
    if |stream| <= config.maxBytes then LongestPrefix(stream, shown)
    else match config.strategy
      case KeepHead => LongestPrefix(head, shown)
      case KeepTail => LongestSuffix(tail, shown)
      case KeepBoth =>
        exists a, b :: LongestPrefix(head, a) && LongestSuffix(tail, b) && shown == a + SEPARATOR + b
  }

  const SEPARATOR: Text := [10, 10]

  /** Has a blob writer been started once `stream` has been seen? */
  predicate Spilling(config: Config, stream: Bytes) {
    config.spill == Always || (config.spill == OnTruncate && config.maxBytes < |stream|)
  }

  /** The chunks one append hands to the queue: nothing, the chunk, or, at the append that
      overflows a lazily spilled stream, everything kept so far and then the chunk. */
  function Sends(config: Config, earlier: seq<Chunk>, chunk: Chunk): seq<Chunk> {
    if !Spilling(config, Flatten(earlier + [chunk])) then []
    else if Spilling(config, Flatten(earlier)) then [chunk]
    else earlier + [chunk]
  }

  /** Everything handed to the queue over a whole run of appends. */
  function AllSends(config: Config, log: seq<Chunk>): seq<Chunk> {
    if log == [] then [] else
    var last := |log| - 1;
    AllSends(config, log[..last]) + Sends(config, log[..last], log[last])
  }

  // ---------------------------------------------------------------- lemmas about the specification

  lemma {:induction false} FlattenConcat(a: seq<Chunk>, b: seq<Chunk>)
    ensures Flatten(a + b) == Flatten(a) + Flatten(b)
  {
    if a == [] {
      assert a + b == b;
    } else {
      assert (a + b)[1..] == a[1..] + b;
      FlattenConcat(a[1..], b);
    }
  }

  lemma FlattenPush(a: seq<Chunk>, c: Chunk)
    ensures Flatten(a + [c]) == Flatten(a) + c
  {
    FlattenConcat(a, [c]);
    assert Flatten([c]) == c + Flatten([]);
  }

  /** The byte counter of the result: as much as allowed, never more. */
  lemma RetainedLength(config: Config, stream: Bytes)
    ensures |Retained(config, stream)| == if |stream| <= config.maxBytes then |stream| else config.maxBytes
  {
  }

  /** A started spill has been sent every chunk of the run, in order, whether it started with
      the first append or only when the stream overflowed; an unstarted one has been sent nothing. */
  lemma {:induction false} AllSendsIsTheLog(config: Config, log: seq<Chunk>)
    ensures AllSends(config, log) == if Spilling(config, Flatten(log)) then log else []
  {
    if log == [] {
    } else {
      var last := |log| - 1;
      AllSendsIsTheLog(config, log[..last]);
      assert log == log[..last] + [log[last]];
      SendsFollow(config, log[..last], log[last]);
    }
  }

  lemma SendsFollow(config: Config, earlier: seq<Chunk>, chunk: Chunk)
    ensures (if Spilling(config, Flatten(earlier)) then earlier else []) + Sends(config, earlier, chunk)
         == if Spilling(config, Flatten(earlier + [chunk])) then earlier + [chunk] else []
  {
    SpillStarts(config, earlier, chunk);
  }

  /** When a spill starts at the latest. */
  lemma SpillStarts(config: Config, earlier: seq<Chunk>, chunk: Chunk)
    ensures var before, after := Flatten(earlier), Flatten(earlier + [chunk]);
      Spilling(config, after) <==>
        Spilling(config, before) || (config.spill != NoWriter && |before| <= config.maxBytes < |after|)
  {
    FlattenPush(earlier, chunk);
  }

  /** The preview of a valid UTF-8 stream is made of whole code points of it: all of them if it
      fits, else the longest leading run and the longest trailing run that their windows hold,
      which never overlap. */
  lemma PreviewOfValidStream(config: Config, text: Text, shown: Text) returns (j: nat, k: nat)
    requires Previews(config, Encode(text), shown)
    ensures j <= k <= |text|
    ensures var stream := Encode(text);
      if |stream| <= config.maxBytes then shown == text
      else match config.strategy
        case KeepHead => MostThatFit(text, config.maxBytes, j) && shown == text[..j]
        case KeepTail => FewestThatReach(text, |stream| - config.maxBytes, k) && shown == text[k..]
        case KeepBoth =>
          && MostThatFit(text, config.HeadLimit(), j)
          && FewestThatReach(text, |stream| - config.TailLimit(), k)
          && shown == text[..j] + SEPARATOR + text[k..]
  {
    var stream := Encode(text);
    j, k := 0, |text|;
    if |stream| <= config.maxBytes {
      WholeStreamShown(text, shown);
    } else {
      match config.strategy {
        case KeepHead =>
          j := HeadWindowShown(text, config.HeadLimit(), shown);
        case KeepTail =>
          k := TailWindowShown(text, config.TailLimit(), shown);
        case KeepBoth =>
          j, k := BothEndsShown(text, config.HeadLimit(), config.TailLimit(), shown);
      }
    }
  }

  lemma WholeStreamShown(text: Text, shown: Text)
    requires LongestPrefix(Encode(text), shown)
    ensures shown == text
  {
    DecodeOfEncode(text);
    assert Encode(text)[..|Encode(text)|] == Encode(text);
    assert DecodeTo(Encode(text), |Encode(text)|) == Some(text);
  }

  lemma BothEndsShown(text: Text, h: nat, t: nat, shown: Text) returns (j: nat, k: nat)
    requires h + t <= |Encode(text)|
    requires exists a, b :: LongestPrefix(Prefix(Encode(text), h), a) && LongestSuffix(Suffix(Encode(text), t), b) &&
                            shown == a + SEPARATOR + b
    ensures j <= k && MostThatFit(text, h, j) && FewestThatReach(text, |Encode(text)| - t, k)
    ensures shown == text[..j] + SEPARATOR + text[k..]
  {
    var a, b :| LongestPrefix(Prefix(Encode(text), h), a) && LongestSuffix(Suffix(Encode(text), t), b) &&
                shown == a + SEPARATOR + b;
    j := HeadWindowShown(text, h, a);
    k := TailWindowShown(text, t, b);
    CutsInOrder(text, h, |Encode(text)| - t, j, k);
  }

  lemma HeadWindowShown(text: Text, h: nat, shown: Text) returns (j: nat)
    requires h <= |Encode(text)| && LongestPrefix(Prefix(Encode(text), h), shown)
    ensures MostThatFit(text, h, j) && shown == text[..j]
  {
    assert Prefix(Encode(text), h) == Encode(text)[..h];
    j := HeadPreviewIsWholeText(text, h, shown);
  }

  lemma TailWindowShown(text: Text, t: nat, shown: Text) returns (k: nat)
    requires t <= |Encode(text)| && LongestSuffix(Suffix(Encode(text), t), shown)
    ensures FewestThatReach(text, |Encode(text)| - t, k) && shown == text[k..]
  {
    assert Suffix(Encode(text), t) == Encode(text)[|Encode(text)| - t..];
    k := TailPreviewIsWholeText(text, |Encode(text)| - t, shown);
  }

  lemma CutsInOrder(text: Text, h: nat, m: nat, j: nat, k: nat)
    requires h <= m && MostThatFit(text, h, j) && FewestThatReach(text, m, k)
    ensures j <= k
  {
    if k < j {
      CutsMonotone(text, k, j);
    }
  }

  // ---------------------------------------------------------------- the implementation

  function AppendTail(existing: seq<Chunk>, chunk: Chunk, maxBytes: nat): seq<Chunk> {
    if maxBytes == 0 then []
    else if |chunk| >= maxBytes then [chunk[|chunk| - maxBytes..]]
    else
      var next := Flatten(existing + [chunk]);
      if |next| <= maxBytes then [next] else [next[|next| - maxBytes..]]
  }

  /** One step of the head window keeps the head of everything captured so far. */
  lemma AppendHeadKeepsPrefix(existing: seq<Chunk>, chunk: Chunk, maxBytes: nat, seen: Bytes)
    requires Flatten(existing) == Prefix(seen, maxBytes)
    ensures var remaining := maxBytes - |Flatten(existing)|;
      && remaining >= 0
      && Flatten(if remaining > 0 then existing + [Prefix(chunk, remaining)] else existing)
           == Prefix(seen + chunk, maxBytes)
  {
    var remaining := maxBytes - |Flatten(existing)|;
    FlattenPush(existing, Prefix(chunk, remaining));
    if remaining > 0 {
      assert Prefix(seen, maxBytes) == seen;
      assert seen + Prefix(chunk, remaining) == Prefix(seen + chunk, maxBytes);
    } else {
      assert Prefix(seen, maxBytes) == Prefix(seen + chunk, maxBytes);
    }
  }

  /** One step of the tail window keeps the tail of everything captured so far. */
  lemma AppendTailKeepsSuffix(existing: seq<Chunk>, chunk: Chunk, maxBytes: nat, seen: Bytes)
    requires Flatten(existing) == Suffix(seen, maxBytes)
    ensures Flatten(AppendTail(existing, chunk, maxBytes)) == Suffix(seen + chunk, maxBytes)
  {
    FlattenPush(existing, chunk);
    var all := seen + chunk;
    var next := Flatten(existing) + chunk;
    if maxBytes == 0 {
      assert Suffix(all, 0) == [];
    } else if |chunk| >= maxBytes {
      FlattenPush([], chunk[|chunk| - maxBytes..]);
      assert [] + [chunk[|chunk| - maxBytes..]] == [chunk[|chunk| - maxBytes..]];
      assert Suffix(all, maxBytes) == chunk[|chunk| - maxBytes..];
    } else {
      var kept := if |next| <= maxBytes then next else next[|next| - maxBytes..];
      FlattenPush([], kept);
      assert [] + [kept] == [kept];
      assert kept == Suffix(all, maxBytes);
    }
  }

  class Retention {
    const config: Config
    var complete: Option<seq<Chunk>>
    var head: seq<Chunk>
    var tail: seq<Chunk>
    var totalBytes: nat
    var hashed: Bytes
    var closed: bool
    var started: bool             // has the blob writer been given a queue?
    var blobRef: Option<string>
    var blobError: Option<string>
    var result: Option<Result>

    /** The chunks appended so far. */
    ghost var log: seq<Chunk>

    /** The windows hold the head and the tail of `captured`. */
    ghost predicate Captured(captured: Bytes)
      reads this
    {
      && Flatten(head) == Prefix(captured, config.HeadLimit())
      && Flatten(tail) == Suffix(captured, config.TailLimit())
    }

    /** The chunks are kept whole as long as they fit, and then as their windows. */
    ghost predicate Keeps(chunks: seq<Chunk>)
      reads this
    {
      var seen := Flatten(chunks);
      && (|seen| <= config.maxBytes ==> complete == Some(chunks) && head == [] && tail == [])
      && (|seen| > config.maxBytes ==> complete == None && Captured(seen))
    }

    ghost predicate Stores()
      reads this
    {
      var seen := Flatten(log);
      && totalBytes == |seen|
      && hashed == seen
      && started == Spilling(config, seen)
      && Keeps(log)
    }

    ghost predicate Valid()
      reads this
    {
      Stores() && (result.Some? ==> closed && Describes(result.value))
    }

    /** `r` says of the stream so far what the specification says of it. */
    ghost predicate Describes(r: Result)
      reads this
    {
      var seen := Flatten(log);
      && Previews(config, seen, r.preview)
      && r.bytesSeen == |seen|
      && r.bytesRetained == |Retained(config, seen)|
      && r.truncated == (|seen| > config.maxBytes)
      && r.digestOf == seen
    }

    constructor (config: Config)
      ensures Valid() && this.config == config && log == [] && !closed
      ensures result == None && blobRef == None && blobError == None
    {
      this.config := config;
      complete, head, tail := Some([]), [], [];
      totalBytes, hashed, closed := 0, [], false;
      started := config.spill == Always;
      blobRef, blobError, result, log := None, None, None, [];
    }

    /** Record one chunk; `sent` lists the chunks given to the spill queue, in order. A closed
        retention refuses and changes nothing. */
    method Append(chunk: Chunk) returns (accepted: bool, sent: seq<Chunk>)
      requires Valid()
      modifies this
      ensures Valid()
      ensures accepted == !old(closed)
      ensures closed == old(closed) && result == old(result)
      ensures blobRef == old(blobRef) && blobError == old(blobError)
      ensures accepted ==> log == old(log) + [chunk] && sent == Sends(config, old(log), chunk)
      ensures !accepted ==> log == old(log) && sent == []
    {
      if closed {
        return false, [];
      }
      sent := Store(chunk);
      return true, sent;
    }

    method Store(chunk: Chunk) returns (sent: seq<Chunk>)
      requires Stores()
      modifies `totalBytes, `hashed, `complete, `head, `tail, `started, `log
      ensures Stores()
      ensures log == old(log) + [chunk] && sent == Sends(config, old(log), chunk)
    {
      FlattenPush(log, chunk);
      SpillStarts(config, log, chunk);
      totalBytes := totalBytes + |chunk|;
      hashed := hashed + chunk;
      sent := Keep(chunk, log);
      log := log + [chunk];
      if started {
        sent := sent + [chunk];
      }
    }

    /** Keep one more chunk, `earlier` being those before it; `replayed` lists the chunks that a spill
        which starts now is given first. */
    method Keep(chunk: Chunk, ghost earlier: seq<Chunk>) returns (replayed: seq<Chunk>)
      requires Keeps(earlier) && totalBytes == |Flatten(earlier + [chunk])|
      modifies `complete, `head, `tail, `started
      ensures Keeps(earlier + [chunk])
      ensures started == (old(started) ||
        (config.spill != NoWriter && |Flatten(earlier)| <= config.maxBytes < |Flatten(earlier + [chunk])|))
      ensures replayed == if started && !old(started) then earlier else []
    {
      replayed := [];
      FlattenPush(earlier, chunk);
      if complete.Some? && totalBytes <= config.maxBytes {
        complete := Some(complete.value + [chunk]);
      } else {
        if complete.Some? {
          replayed := Overflow();
        }
        Capture(chunk, Flatten(earlier));
      }
    }

    /** The first append beyond the limit: nothing is kept whole any longer, and a spill that was
        not yet running starts with everything kept so far. */
    method Overflow() returns (sent: seq<Chunk>)
      requires complete.Some? && head == [] && tail == []
      modifies `complete, `started, `head, `tail
      ensures complete == None && Captured(Flatten(old(complete).value))
      ensures started == (old(started) || config.spill != NoWriter)
      ensures sent == if started && !old(started) then old(complete).value else []
    {
      var previous := complete.value;
      sent, complete := [], None;
      if config.spill != NoWriter && !started {
        started := true;
        sent := SendAll(previous);
      }
      CaptureAll(previous);
    }

    /** The lazy spill's replay: one awaited enqueue per chunk kept so far. */
    method SendAll(previous: seq<Chunk>) returns (sent: seq<Chunk>)
      ensures sent == previous
    {
      sent := [];
      for i := 0 to |previous|
        invariant sent == previous[..i]
      {
        sent := sent + [previous[i]];
      }
    }

    /** Move what was kept whole into the windows. */
    method CaptureAll(previous: seq<Chunk>)
      requires head == [] && tail == []
      modifies `head, `tail
      ensures Captured(Flatten(previous))
    {
      for i := 0 to |previous|
        invariant Captured(Flatten(previous[..i]))
      {
        Capture(previous[i], Flatten(previous[..i]));
        assert previous[..i + 1] == previous[..i] + [previous[i]];
        FlattenPush(previous[..i], previous[i]);
      }
      assert previous[..|previous|] == previous;
    }

    /** Extend the windows from the head and tail of `captured` to those of `captured + chunk`. */
    method Capture(chunk: Chunk, ghost captured: Bytes)
      requires Captured(captured)
      modifies `head, `tail
      ensures Captured(captured + chunk)
    {
      AppendHeadKeepsPrefix(head, chunk, config.HeadLimit(), captured);
      AppendTailKeepsSuffix(tail, chunk, config.TailLimit(), captured);
      if config.HeadLimit() > 0 {
        var retained := |Flatten(head)|;
        var remaining := config.HeadLimit() - retained;
        if remaining > 0 {
          head := head + [Prefix(chunk, remaining)];
        }
      }
      if config.TailLimit() > 0 {
        tail := AppendTail(tail, chunk, config.TailLimit());
      }
    }

    function RetainedBytes(): Bytes
      reads this
    {
      if complete.Some? then Flatten(complete.value)
      else match config.strategy
        case KeepHead => Flatten(head)
        case KeepTail => Flatten(tail)
        case KeepBoth => Flatten(head + tail)
    }

    /** What is kept is the specified window of the stream, whatever chunks it came in. */
    lemma RetainedBytesAreTheWindow()
      requires Valid()
      ensures RetainedBytes() == Retained(config, Flatten(log))
    {
      FlattenConcat(head, tail);
      if complete.None? && config.strategy != KeepBoth {
        assert Prefix(Flatten(log), 0) == [] && Suffix(Flatten(log), 0) == [];
      }
    }

    /** The result of the stream so far; a final one is remembered and returned ever after. */
    method MakeResult(final: bool) returns (r: Result)
      requires Valid() && (final ==> closed)
      modifies `result
      ensures Valid() && Describes(r)
      ensures old(result).Some? ==> r == old(result).value
      ensures old(result).None? ==> r.blobRef == Truthy(blobRef) && r.blobError == Truthy(blobError)
      ensures result == if final then Some(r) else old(result)
    {
      if result.Some? {
        return result.value;
      }
      RetainedBytesAreTheWindow();
      var truncated := totalBytes > config.maxBytes;
      var retained := RetainedBytes();
      var shownHead := DecodeUtf8(if complete.Some? then retained else Flatten(head));
      var shownTail := [];
      if complete.None? {
        shownTail := DecodeTailUtf8(Flatten(tail));
      }
      var preview := if !truncated then shownHead else
        match config.strategy
        case KeepHead => shownHead
        case KeepTail => shownTail
        case KeepBoth => shownHead + SEPARATOR + shownTail;
      r := Result(preview, totalBytes, |retained|, truncated, hashed, Truthy(blobRef), Truthy(blobError));
      if final {
        result := Some(r);
      }
    }

    method Snapshot() returns (r: Result)
      requires Valid()
      modifies `result
      ensures Valid() && Describes(r) && result == old(result)
    {
      r := MakeResult(false);
    }

    /** The first part of `flush`: from here on appends are refused. */
    method BeginFlush()
      requires Valid()
      modifies `closed
      ensures Valid() && closed
    {
      closed := true;
    }

    /** The spill settles before the last part of `flush` runs. */
    method SettleBlob(outcome: Option<string>, error: string)
      requires Valid() && result.None?
      modifies `blobRef, `blobError
      ensures Valid()
      ensures blobRef == outcome && blobError == if outcome.None? then Some(error) else old(blobError)
    {
      blobRef := outcome;
      if outcome.None? {
        blobError := Some(error);
      }
    }

    /** All of `flush`, if nothing happens in between but that a started spill settles. */
    method Flush(outcome: Option<string>, error: string) returns (r: Result)
      requires Valid() && !closed && blobRef.None? && blobError.None?
      modifies this
      ensures Valid() && Describes(r) && log == old(log) && started == old(started)
      ensures r.blobRef == if started then Truthy(outcome) else None
      ensures r.blobError == if started && outcome.None? then Truthy(Some(error)) else None
    {
      BeginFlush();
      if started {
        SettleBlob(outcome, error);
      }
      r := FinishFlush();
    }

    /** The last part of `flush`. */
    method FinishFlush() returns (r: Result)
      requires Valid() && closed
      modifies `result
      ensures Valid() && Describes(r) && result == Some(r)
      ensures old(result).None? ==> r.blobRef == Truthy(blobRef) && r.blobError == Truthy(blobError)
    {
      r := MakeResult(true);
    }
  }

  /** `createOutputRetention`: a size that is not a safe non-negative integer is refused. */
  method CreateOutputRetention(maxBytes: int, strategy: Option<Strategy>, spill: Spill) returns (r: Retention?)
    ensures r == null <==> maxBytes < 0 || MAX_SAFE_INTEGER < maxBytes
    ensures r != null ==> fresh(r) && r.Valid() && r.log == [] && !r.closed && r.result == None
    ensures r != null && strategy.None? ==> r.config == Config(maxBytes, KeepBoth, spill)
    ensures r != null && strategy.Some? ==> r.config == Config(maxBytes, strategy.value, spill)
  {
    if maxBytes < 0 || MAX_SAFE_INTEGER < maxBytes {
      return null;
    }
    r := new Retention(Config(maxBytes, if strategy.Some? then strategy.value else KeepBoth, spill));
  }

  /** `retainOutput`, with the reference its spill settles with or the error it fails with: whatever the
      chunks, the result describes their concatenation, and a spill has been sent all of them. */
  method RetainOutput(source: seq<Chunk>, config: Config, outcome: Option<string>, error: string)
    returns (r: Result, sent: seq<Chunk>)
    ensures Previews(config, Flatten(source), r.preview)
    ensures r.bytesSeen == |Flatten(source)| && r.bytesRetained == |Retained(config, Flatten(source))|
    ensures r.truncated == (|Flatten(source)| > config.maxBytes) && r.digestOf == Flatten(source)
    ensures Spilling(config, Flatten(source)) ==>
      && sent == source && r.blobRef == Truthy(outcome)
      && r.blobError == if outcome.Some? then None else Truthy(Some(error))
    ensures !Spilling(config, Flatten(source)) ==> sent == [] && r.blobRef == None && r.blobError == None
  {
    var retention;
    retention, sent := AppendEach(source, config);
    AllSendsIsTheLog(config, source);
    r := retention.Flush(outcome, error);
  }

  method AppendEach(source: seq<Chunk>, config: Config) returns (retention: Retention, sent: seq<Chunk>)
    ensures fresh(retention) && retention.Valid() && retention.config == config && retention.log == source
    ensures !retention.closed && retention.result == None
    ensures retention.blobRef == None && retention.blobError == None
    ensures sent == AllSends(config, source)
  {
    retention := new Retention(config);
    sent := [];
    for i := 0 to |source|
      invariant fresh(retention) && retention.Valid() && retention.config == config
      invariant retention.log == source[..i] && !retention.closed && retention.result == None
      invariant retention.blobRef == None && retention.blobError == None
      invariant sent == AllSends(config, retention.log)
    {
      assert source[..i + 1] == source[..i] + [source[i]];
      var accepted, more := retention.Append(source[i]);
      sent := sent + more;
    }
    assert source[..|source|] == source;
  }
}
