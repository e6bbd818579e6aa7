/** The reporter: it picks the transport from the configured URL, and on
    every tick drains the event store into one packet, a header frame, a
    metadata frame and the events in sequence order, and sends it. */
module Reporting {
  import opened Common
  import opened Sorting
  import opened Datasource
  import opened RingQueues
  import opened Storage
  import opened FileCache
  import opened CachedTransport

  /** The event type of the header frame. */
  const HeaderEventType: int := -1
  /** The data format version the header announces. */
  const FormatVersion: string := "20230706T094422Z"
  /** The placeholders of the URL template. */
  const SessionPlaceholder: string := "{sessionId}"
  const StreamPlaceholder: string := "{streamId}"
  /** `Config.Reporter().url`: this base, then the stream id's placeholder,
      a slash and the session id's. */
  const DefaultBase: string := "https://example.com/api/post/"
  const DefaultUrl: string := DefaultBase + StreamPlaceholder + "/" + SessionPlaceholder

  /** The reporter's part of the configuration. The cache budget is not
      here: the reporter creates its cached transport without a
      configuration, so that cache always has the default budget. */
  datatype ReporterConfig = ReporterConfig(cachedTransport: bool, url: string, sessionId: string)

  /** `Config.Reporter()`, but for the session id, which is persisted in
      the user defaults and is a parameter here. */
  function DefaultConfig(sessionId: string): ReporterConfig
  {
    ReporterConfig(true, DefaultUrl, sessionId)
  }

  // ---------------------------------------------------------------------
  // URL substitution and scheme dispatch

  /** `s.replacingOccurrences(of: p, with: w)`: every occurrence of `p`,
      scanned left to right without overlaps, becomes `w`. An empty `p`
      leaves `s` as it is. */
  function ReplaceAll(s: string, p: string, w: string): string
    decreases |s|
  {
    if |p| == 0 || |s| < |p| then s
    else if s[..|p|] == p then w + ReplaceAll(s[|p|..], p, w)
    else [s[0]] + ReplaceAll(s[1..], p, w)
  }

  /** `p` occurs in `s` at index `i`. */
  ghost predicate OccursAt(s: string, p: string, i: int)
    requires 0 <= i <= |s| - |p|
  {
    s[i..i + |p|] == p
  }

  /** Text in which `p` does not occur is left unchanged. */
  lemma {:induction false} ReplaceAbsent(s: string, p: string, w: string)
    requires forall i :: 0 <= i <= |s| - |p| ==> !OccursAt(s, p, i)
    ensures ReplaceAll(s, p, w) == s
    decreases |s|
  {
    if |p| != 0 && |s| >= |p| {
      assert !OccursAt(s, p, 0);
      var t := s[1..];
      forall i | 0 <= i <= |t| - |p| ensures !OccursAt(t, p, i) {
        assert t[i..i + |p|] == s[i + 1..i + 1 + |p|];
        assert !OccursAt(s, p, i + 1);
      }
      ReplaceAbsent(t, p, w);
      assert s == [s[0]] + t;
    }
  }

  /** An occurrence at the front becomes the replacement. */
  lemma ReplaceFront(p: string, s: string, w: string)
    requires |p| > 0
    ensures ReplaceAll(p + s, p, w) == w + ReplaceAll(s, p, w)
  {
    assert (p + s)[..|p|] == p;
    assert (p + s)[|p|..] == s;
  }

  /** Text without the first character of `p` is passed over unchanged. */
  lemma {:induction false} ReplaceSkips(a: string, s: string, p: string, w: string)
    requires |p| > 0
    requires forall i :: 0 <= i < |a| ==> a[i] != p[0]
    ensures ReplaceAll(a + s, p, w) == a + ReplaceAll(s, p, w)
    decreases |a|
  {
    if a == [] {
      assert a + s == s;
    } else {
      var t := a + s;
      if |t| >= |p| {
        assert t[..|p|] != p by {
          assert t[..|p|][0] == a[0];
        }
        assert t[1..] == a[1..] + s;
        ReplaceSkips(a[1..], s, p, w);
        calc {
          ReplaceAll(t, p, w);
          [a[0]] + ReplaceAll(a[1..] + s, p, w);
          [a[0]] + (a[1..] + ReplaceAll(s, p, w));
          { assert a == [a[0]] + a[1..]; }
          a + ReplaceAll(s, p, w);
        }
      } else {
        assert ReplaceAll(s, p, w) == s;
      }
    }
  }

  ghost predicate NoBrace(s: string)
  {
    forall i :: 0 <= i < |s| ==> s[i] != '{'
  }

  /** The endpoint `start` connects to: the template with the session id,
      then the freshly minted stream id, filled in. */
  function EndpointText(config: ReporterConfig, streamId: string): string
  {
    ReplaceAll(ReplaceAll(config.url, SessionPlaceholder, config.sessionId), StreamPlaceholder, streamId)
  }

  /** Filling in the session id in the default template: the stream
      id's placeholder is passed over and the session id's replaced. */
  lemma DefaultSessionFilled(sessionId: string)
    ensures ReplaceAll(DefaultUrl, SessionPlaceholder, sessionId) == DefaultBase + (StreamPlaceholder + ("/" + sessionId))
  {
    var sess, strm := SessionPlaceholder, StreamPlaceholder;
    var t := strm + ("/" + sess);
    assert DefaultUrl == DefaultBase + t;
    assert NoBrace(DefaultBase);
    ReplaceSkips(DefaultBase, t, sess, sessionId);
    SessionAfterStream(sessionId);
  }

  /** The session id's placeholder after the stream id's. */
  lemma SessionAfterStream(sessionId: string)
    ensures ReplaceAll(StreamPlaceholder + ("/" + SessionPlaceholder), SessionPlaceholder, sessionId)
      == StreamPlaceholder + ("/" + sessionId)
  {
    var sess, strm := SessionPlaceholder, StreamPlaceholder;
    var t := strm + ("/" + sess);
    var rest := strm[1..] + "/";
    StreamStartsTemplate(t);
    SkipMismatch(t, sess, sessionId);
    RestOfStream(sessionId);
    calc {
      [t[0]] + (rest + sessionId);
      { Assoc([t[0]], rest, sessionId); }
      [t[0]] + rest + sessionId;
      { Assoc([strm[0]], strm[1..], "/"); assert [strm[0]] + strm[1..] == strm; }
      strm + "/" + sessionId;
      { Assoc(strm, "/", sessionId); }
      strm + ("/" + sessionId);
    }
  }

  /** The session id's placeholder does not occur at the front of the
      stream id's. */
  lemma StreamStartsTemplate(t: string)
    requires t == StreamPlaceholder + ("/" + SessionPlaceholder)
    ensures |t| >= |SessionPlaceholder| && t[..|SessionPlaceholder|] != SessionPlaceholder
    ensures t[0] == StreamPlaceholder[0]
    ensures t[1..] == (StreamPlaceholder[1..] + "/") + SessionPlaceholder
  {
    assert t[..|SessionPlaceholder|][2] == StreamPlaceholder[2] == 't' && SessionPlaceholder[2] == 'e';
    var strm, u := StreamPlaceholder, "/" + SessionPlaceholder;
    assert strm == [strm[0]] + strm[1..];
    Assoc([strm[0]], strm[1..], u);
    assert t == [strm[0]] + (strm[1..] + u);
    assert t[1..] == strm[1..] + u;
    Assoc(strm[1..], "/", SessionPlaceholder);
  }

  /** The rest of the stream id's placeholder and the slash are passed
      over, and the session id's placeholder replaced. */
  lemma RestOfStream(sessionId: string)
    ensures ReplaceAll((StreamPlaceholder[1..] + "/") + SessionPlaceholder, SessionPlaceholder, sessionId)
      == (StreamPlaceholder[1..] + "/") + sessionId
  {
    var sess, rest := SessionPlaceholder, StreamPlaceholder[1..] + "/";
    assert NoBrace(rest);
    ReplaceSkips(rest, sess, sess, sessionId);
    ReplaceFront(sess, "", sessionId);
    assert sess + "" == sess;
  }

  /** A position at which `p` does not occur is passed over. */
  lemma SkipMismatch(s: string, p: string, w: string)
    requires 0 < |p| <= |s| && s[..|p|] != p
    ensures ReplaceAll(s, p, w) == [s[0]] + ReplaceAll(s[1..], p, w)
  {
  }

  /** Filling in the stream id next. */
  lemma DefaultStreamFilled(sessionId: string, streamId: string)
    requires NoBrace(sessionId)
    ensures ReplaceAll(DefaultBase + (StreamPlaceholder + ("/" + sessionId)), StreamPlaceholder, streamId)
      == DefaultBase + streamId + "/" + sessionId
  {
    var strm, tail := StreamPlaceholder, "/" + sessionId;
    assert NoBrace(DefaultBase);
    ReplaceSkips(DefaultBase, strm + tail, strm, streamId);
    ReplaceFront(strm, tail, streamId);
    ReplaceSkips(tail, "", strm, streamId);
    assert tail + "" == tail;
  }

  /** With the default template, and ids without braces (a UUID string is
      hexadecimal digits and dashes), the stream id and then the session id
      end the path. */
  lemma DefaultEndpoint(sessionId: string, streamId: string)
    requires NoBrace(sessionId) && NoBrace(streamId)
    ensures EndpointText(DefaultConfig(sessionId), streamId) == "https://example.com/api/post/" + streamId + "/" + sessionId
  {
    DefaultSessionFilled(sessionId);
    DefaultStreamFilled(sessionId, streamId);
  }

  /** What `URL(string:)` makes of a text: its scheme, if it has one. */
  datatype Url = Url(text: string, scheme: Option<string>)

  /** `URL(string:)`, which is Foundation's: `None` where it returns nil. */
  type UrlParser = string -> Option<Url>

  /** The switch on `url.scheme`: WebSocket for `ws` and `wss`, HTTP for
      `http` and `https`, nothing for any other scheme or none. */
  function Connection(url: Url): Option<Kind>
  {
    match url.scheme
    case Some(s) =>
      if s == "ws" || s == "wss" then Some(WebSocket(url.text))
      else if s == "http" || s == "https" then Some(Http(url.text))
      else None
    case None => None
  }

  /** Exactly the four supported schemes give a transport, to the URL
      itself, and the two WebSocket schemes give the WebSocket one. */
  lemma ConnectionSchemes(url: Url)
    ensures Connection(url).Some? <==> url.scheme.Some? && url.scheme.value in {"ws", "wss", "http", "https"}
    ensures Connection(url) == Some(WebSocket(url.text)) <==> url.scheme == Some("ws") || url.scheme == Some("wss")
    ensures Connection(url) == Some(Http(url.text)) <==> url.scheme == Some("http") || url.scheme == Some("https")
  {
  }

  // ---------------------------------------------------------------------
  // Packets

  /** The sorting key of the store's pairs: the sequence number. */
  function Sequence(e: Event): int { e.0 }

  /** The frames of the pairs, in their order (`.map(\.1)`). */
  function Frames(events: seq<Event>): (r: seq<DataType>)
    ensures |r| == |events| && forall i :: 0 <= i < |r| ==> r[i] == events[i].1
  {
    seq(|events|, i requires 0 <= i < |events| => events[i].1)
  }

  /** Every value encoded, or `None` as soon as one fails (the `try?`
      around the whole map). */
  function EncodeAll(values: seq<DataType>, encode: Encoder): (r: Option<seq<string>>)
    ensures r.Some? <==> forall i :: 0 <= i < |values| ==> encode(values[i]).Some?
    ensures r.Some? ==> |r.value| == |values| && forall i :: 0 <= i < |values| ==> r.value[i] == encode(values[i]).value
  {
    if values == [] then Some([])
    else
      match (encode(values[0]), EncodeAll(values[1..], encode))
      case (Some(first), Some(rest)) =>
        assert forall i :: 1 <= i < |values| ==> values[i] == values[1..][i - 1];
        Some([first] + rest)
      case (None, _) => None
      case (_, None) =>
        assert forall i :: 0 <= i < |values[1..]| ==> values[1..][i] == values[i + 1];
        None
  }

  /** The header frame `getHeader` builds. */
  function Header(ts: int, sessionId: string, streamId: string, sequenceId: int): DataType
  {
    Array([Int(HeaderEventType), Int64(ts), Str(sessionId), Str(streamId), Int(sequenceId),
           Dict(map["version" := Str(FormatVersion)])])
  }

  /** The packet text: the header, the metadata and the events joined by
      ",\n" and framed as a JSON array. */
  function Packet(header: string, metadata: string, events: seq<string>): string
  {
    Framed(Join([header, metadata, Join(events, ",\n")], ",\n"))
  }

  /** The packet spelled out: a bracket and a newline, the header, the
      metadata frame and every event separated by a comma and a newline,
      then a newline and a bracket. */
  lemma PacketLayout(header: string, metadata: string, events: seq<string>)
    ensures Packet(header, metadata, events) == "[\n" + header + ",\n" + metadata + ",\n" + Join(events, ",\n") + "\n]"
  {
    var sep, body := ",\n", Join(events, ",\n");
    var parts := [header, metadata, body];
    assert parts[1..] == [metadata, body];
    assert parts[1..][1..] == [body];
    assert Join(parts[1..], sep) == metadata + sep + body;
    assert Join(parts, sep) == header + sep + (metadata + sep + body);
    var open := "[\n";
    calc {
      open + (header + sep + (metadata + sep + body));
      { Assoc(open, header + sep, metadata + sep + body); }
      open + (header + sep) + (metadata + sep + body);
      { Assoc(open, header, sep); }
      open + header + sep + (metadata + sep + body);
      { Assoc(open + header + sep, metadata + sep, body); }
      open + header + sep + (metadata + sep) + body;
      { Assoc(open + header + sep, metadata, sep); }
      open + header + sep + metadata + sep + body;
    }
  }

  lemma Assoc(x: string, y: string, z: string)
    ensures x + (y + z) == x + y + z
  {
  }

  /** What one tick sends, given the store's pairs, the encoder and the
      header and metadata texts: nothing when the store is empty or an
      event fails to encode, otherwise the packet of the events ordered by
      sequence number. */
  function TickPacket(events: seq<Event>, encode: Encoder, header: string, metadata: string): Option<string>
  {
    var frames := Frames(SortBy(events, Sequence));
    if frames == [] then None
    else match EncodeAll(frames, encode)
      case None => None
      case Some(encoded) => Some(Packet(header, metadata, encoded))
  }

  /** A tick sends a packet exactly when the store held a pair and every
      frame encodes; the events in it are then in ascending sequence order
      and are the store's pairs rearranged. */
  lemma TickPacketCases(events: seq<Event>, encode: Encoder, header: string, metadata: string)
    ensures TickPacket(events, encode, header, metadata).Some? <==>
      events != [] && forall i :: 0 <= i < |events| ==> encode(events[i].1).Some?
    ensures var sorted := SortBy(events, Sequence);
      TickPacket(events, encode, header, metadata).Some? ==>
        && SortedBy(sorted, Sequence) && multiset(sorted) == multiset(events)
        && TickPacket(events, encode, header, metadata) == Some(Packet(header, metadata, EncodeAll(Frames(sorted), encode).value))
  {
    var sorted := SortBy(events, Sequence);
    var frames := Frames(sorted);
    if forall i :: 0 <= i < |events| ==> encode(events[i].1).Some? {
      forall i | 0 <= i < |frames| ensures encode(frames[i]).Some? {
        assert sorted[i] in multiset(events);
      }
    } else {
      var i :| 0 <= i < |events| && encode(events[i].1).None?;
      assert events[i] in multiset(sorted);
      var j :| 0 <= j < |sorted| && sorted[j] == events[i];
      assert encode(frames[j]).None?;
    }
  }

  /** Pairs saved with ascending sequence numbers go out in the order they
      were saved. */
  lemma InOrderStaysInOrder(events: seq<Event>)
    requires SortedBy(events, Sequence)
    ensures Frames(SortBy(events, Sequence)) == Frames(events)
  {
    SortSorted(events, Sequence);
  }

  // ---------------------------------------------------------------------
  // The reporter

  /** `reporterTask`: never scheduled, scheduled, or cancelled by `stop`
      (`stop` cancels it but leaves it set). */
  datatype TaskState = NoTask | Scheduled | Cancelled

  /** The transport `start` assigned: the connection itself or the cached
      transport wrapping it. */
  datatype Sender = Direct(conn: Transport) | Caching(cached: TrapCachedTransport)

  class TrapReporter {
    const storage: TrapStorage
    const config: ReporterConfig
    var task: TaskState
    var transport: Option<Sender>
    var streamId: string
    var sequenceId: int

    /** The connection underneath the assigned transport. */
    function Connected(): Option<Transport>
      reads this
    {
      match transport
      case None => None
      case Some(Direct(t)) => Some(t)
      case Some(Caching(c)) => Some(c.underlying)
    }

    /** The connection underneath, as a frame. */
    ghost function Wire(): set<object>
      reads this
    {
      match transport
      case None => {}
      case Some(Direct(t)) => {t}
      case Some(Caching(c)) => {c.underlying}
    }

    /** The calls the connection underneath has received. */
    ghost function Calls(): seq<Call>
      reads this, Wire()
    {
      match transport
      case None => []
      case Some(Direct(t)) => t.calls
      case Some(Caching(c)) => c.underlying.calls
    }

    /** The objects the assigned transport changes when it sends. */
    ghost function Sink(): set<object>
      reads this
    {
      match transport
      case None => {}
      case Some(Direct(t)) => {t}
      case Some(Caching(c)) => {c.underlying} + if c.cache.Some? then {c.cache.value.directory} else {}
    }

    ghost function Objects(): set<object>
      reads this
    {
      Sink() + match transport
        case Some(Caching(c)) => {c} + if c.cache.Some? then {c.cache.value} else {}
        case _ => {}
    }

    ghost predicate Valid()
      reads this, storage, storage.queue, storage.queue.buffer, Objects()
    {
      && storage.Valid()
      && (task == NoTask <==> transport.None?)
      && (transport.Some? && transport.value.Caching? ==>
            transport.value.cached.Valid() && transport.value.cached.CacheFramed())
    }

    /** The cached transport, if any, can take `file` and add up its
        sizes. */
    ghost predicate CanCache(file: string)
      reads this, Objects()
    {
      transport.Some? && transport.value.Caching? && transport.value.cached.cache.Some? ==>
        var entries := transport.value.cached.cache.value.directory.entries;
        SumSizes(entries) <= UInt64Max && forall e :: e in entries ==> e.path != file
    }

    /** `init`: no transport and no task yet; `streamId` is the UUID the
        property initialiser mints. */
    constructor (storage: TrapStorage, config: ReporterConfig, streamId: string)
      requires storage.Valid()
      ensures Valid()
      ensures this.storage == storage && this.config == config && this.streamId == streamId
      ensures task == NoTask && transport == None && sequenceId == 0
    {
      this.storage := storage;
      this.config := config;
      this.streamId := streamId;
      task := NoTask;
      transport := None;
      sequenceId := 0;
    }

    /** `start()`. `newStreamId` is the UUID minted for the stream, `parse`
        is `URL(string:)` and `cacheDir` the cache directory of the cached
        transport (`None` where the file cache cannot be created). Once a
        task exists, nothing happens: neither a failed start nor a stop
        clears it. */
    method Start(newStreamId: string, parse: UrlParser, cacheDir: Option<Directory>) returns (err: Option<Error>)
      requires Valid()
      requires cacheDir.Some? ==> cacheDir.value.Valid() && forall e :: e in cacheDir.value.entries ==> |e.content| >= 3
      modifies this
      ensures Valid()
      ensures sequenceId == old(sequenceId)
      ensures old(task) != NoTask ==>
        err == None && task == old(task) && transport == old(transport) && streamId == old(streamId)
      ensures old(task) == NoTask ==>
        && streamId == newStreamId
        && var url := parse(EndpointText(config, newStreamId));
           if url.None? then err == Some(TransportURLError) && task == NoTask && transport == None
           else if Connection(url.value).None? then err == Some(TransportSchemeError) && task == NoTask && transport == None
           else
             && err == None && task == Scheduled && transport.Some?
             && (transport.value.Caching? <==> config.cachedTransport)
             && Connected().Some? && fresh(Connected().value)
             && Connected().value.kind == Connection(url.value).value
             && Calls() == [Started]
             && (transport.value.Caching? ==>
                   && fresh(transport.value.cached)
                   && (transport.value.cached.cache.Some? <==> cacheDir.Some?)
                   && (cacheDir.Some? ==>
                         && transport.value.cached.cache.value.directory == cacheDir.value
                         && transport.value.cached.cache.value.cacheSize == DefaultMaxSize))
    {
      if task != NoTask {
        return None;
      }
      streamId := newStreamId;
      var url := parse(EndpointText(config, streamId));
      if url.None? {
        return Some(TransportURLError);
      }
      var kind := Connection(url.value);
      if kind.None? {
        return Some(TransportSchemeError);
      }
      var conn := new Transport(kind.value);
      if config.cachedTransport {
        var cached := new TrapCachedTransport(conn, cacheDir, DefaultMaxSize);
        transport := Some(Caching(cached));
        cached.Start();
      } else {
        transport := Some(Direct(conn));
        conn.Start();
      }
      task := Scheduled;
      err := None;
    }

    /** `stop()`: cancels the reporter task, which stays set, and stops the
        transport, if there is one. */
    method Stop()
      requires Valid()
      modifies this, Wire()
      ensures Valid()
      ensures task == (if old(task) == Scheduled then Cancelled else old(task))
      ensures transport == old(transport) && streamId == old(streamId) && sequenceId == old(sequenceId)
      ensures Calls() == old(Calls()) + (if transport.Some? then [Stopped] else [])
    {
      if task == Scheduled {
        task := Cancelled;
      }
      match transport
      case None =>
      case Some(Direct(t)) => t.Stop();
      case Some(Caching(c)) => c.Stop();
    }

    /** `getHeader()` at time `ts` (milliseconds since the epoch): the
        header frame with the current sequence id, which then advances. */
    method GetHeader(ts: int) returns (h: DataType)
      modifies this
      ensures h == Header(ts, config.sessionId, streamId, old(sequenceId))
      ensures sequenceId == old(sequenceId) + 1
      ensures task == old(task) && transport == old(transport) && streamId == old(streamId)
    {
      h := Header(ts, config.sessionId, streamId, sequenceId);
      sequenceId := sequenceId + 1;
    }

    /** One run of the scheduled task at time `ts`. `metadata` is the
        encoded metadata frame, `encode` the JSON encoder, and `file` and
        `now` what the cached transport names and dates a packet it keeps.
        The header is encoded with `try!`, so its encoding must not fail.
        The completion's only effect is a debug message. */
    method Tick(ts: int, metadata: string, encode: Encoder, file: string, now: int) returns (sent: Option<string>)
      requires Valid() && task == Scheduled && CanCache(file)
      requires encode(Header(ts, config.sessionId, streamId, sequenceId)).Some?
      modifies this, storage.queue, Sink()
      ensures Valid()
      ensures storage.queue.Contents == []
      ensures sent == TickPacket(old(storage.queue.Contents), encode,
                                 old(encode(Header(ts, config.sessionId, streamId, sequenceId))).value, metadata)
      ensures sequenceId == old(sequenceId) + (if sent.Some? then 1 else 0)
      ensures task == old(task) && transport == old(transport) && streamId == old(streamId)
      ensures sent.None? ==> unchanged(Sink())
      ensures sent.Some? && transport.value.Direct? ==> Calls() == old(Calls()) + [Sent(sent.value)]
      ensures sent.Some? && transport.value.Caching? ==> Calls() == old(Calls()) || SentLast(Calls(), sent.value)
    {
      sent := Collect(ts, metadata, encode);
      if sent.Some? {
        Deliver(sent.value, file, now);
      }
    }

    /** The first half of a tick: the store drained, sorted and encoded
        into a packet, if there is one to send. */
    method Collect(ts: int, metadata: string, encode: Encoder) returns (packet: Option<string>)
      requires Valid()
      requires encode(Header(ts, config.sessionId, streamId, sequenceId)).Some?
      modifies this, storage.queue
      ensures Valid()
      ensures storage.queue.Contents == []
      ensures packet == TickPacket(old(storage.queue.Contents), encode,
                                   old(encode(Header(ts, config.sessionId, streamId, sequenceId))).value, metadata)
      ensures sequenceId == old(sequenceId) + (if packet.Some? then 1 else 0)
      ensures task == old(task) && transport == old(transport) && streamId == old(streamId)
    {
      var data := Drain();
      if data == [] {
        return None;
      }
      var json := EncodeAll(data, encode);
      if json.None? {
        return None;
      }
      var h := GetHeader(ts);
      packet := Some(Packet(encode(h).value, metadata, json.value));
    }

    /** The store's frames, drained through an iterator and ordered by
        their sequence keys. */
    method Drain() returns (data: seq<DataType>)
      requires Valid()
      modifies storage.queue
      ensures Valid()
      ensures storage.queue.Contents == []
      ensures data == Frames(SortBy(old(storage.queue.Contents), Sequence))
    {
      var it := storage.MakeIterator();
      var events := DrainAll(it);
      data := Frames(SortBy(events, Sequence));
    }

    /** The second half of a tick: the packet handed to the transport. */
    method Deliver(packet: string, file: string, now: int)
      requires Valid() && transport.Some? && CanCache(file) && |packet| >= 3
      modifies Sink()
      ensures Valid()
      ensures transport.value.Direct? ==> Calls() == old(Calls()) + [Sent(packet)]
      ensures transport.value.Caching? ==> Calls() == old(Calls()) || SentLast(Calls(), packet)
    {
      match transport.value
      case Direct(t) =>
        var _ := t.Send(packet);
      case Caching(c) =>
        SendCached(c, packet, file, now);
    }
  }

  /** The packet handed to a cached transport: it is sent last, or nothing
      is sent when the cache cannot be read. */
  method SendCached(c: TrapCachedTransport, packet: string, file: string, now: int)
    requires c.Valid() && c.CacheFramed() && |packet| >= 3
    requires c.cache.Some? ==> SumSizes(c.cache.value.directory.entries) <= UInt64Max
    requires c.cache.Some? ==> forall e :: e in c.cache.value.directory.entries ==> e.path != file
    modifies c.underlying, if c.cache.Some? then {c.cache.value.directory} else {}
    ensures c.Valid() && c.CacheFramed()
    ensures c.underlying.calls == old(c.underlying.calls) || SentLast(c.underlying.calls, packet)
  {
    var cached, batchReply, liveReply, handled, readAt, deleted, deleteErr, pushErr, pushDeleted := c.Send(packet, file, now);
  }

  /** The last call sent `data`. */
  ghost predicate SentLast(calls: seq<Call>, data: string)
  {
    |calls| > 0 && calls[|calls| - 1] == Sent(data)
  }

  // ---------------------------------------------------------------------
  // Lifecycle scenarios

  /** The reporter's unit test with the default configuration: start
      connects a cached HTTP transport to the endpoint and starts it; stop
      stops it; a second start does nothing, not even mint a stream id. */
  method StartStopStart(storage: TrapStorage, sessionId: string, first: string, second: string,
                        parse: UrlParser, dir: Directory)
    returns (started: Option<Error>, restarted: Option<Error>, calls: seq<Call>, streamId: string)
    requires storage.Valid() && dir.Valid() && forall e :: e in dir.entries ==> |e.content| >= 3
    requires var url := parse(EndpointText(DefaultConfig(sessionId), first));
      url.Some? && url.value.scheme == Some("https")
    ensures started == None && restarted == None
    ensures calls == [Started, Stopped] && streamId == first
  {
    var reporter := new TrapReporter(storage, DefaultConfig(sessionId), "initial");
    started := reporter.Start(first, parse, Some(dir));
    reporter.Stop();
    restarted := reporter.Start(second, parse, Some(dir));
    calls := reporter.Connected().value.calls;
    assert calls == reporter.Calls();
    streamId := reporter.streamId;
  }

  /** A start that fails leaves no transport, and a later start tries
      again with a new stream id. */
  method FailedStartRetries(storage: TrapStorage, config: ReporterConfig, first: string, second: string,
                            parse: UrlParser)
    returns (failed: Option<Error>, retried: Option<Error>)
    requires storage.Valid()
    requires parse(EndpointText(config, first)).None?
    requires parse(EndpointText(config, second)).Some?
    requires parse(EndpointText(config, second)).value.scheme == Some("wss")
    ensures failed == Some(TransportURLError) && retried == None
  {
    var reporter := new TrapReporter(storage, config, "initial");
    failed := reporter.Start(first, parse, None);
    retried := reporter.Start(second, parse, None);
  }

  /** Successive headers carry successive sequence ids and the same stream
      id; a (re)start never resets the counter. */
  method SuccessiveHeaders(reporter: TrapReporter, ts: int)
    returns (first: DataType, second: DataType)
    modifies reporter
    ensures first == Header(ts, reporter.config.sessionId, reporter.streamId, old(reporter.sequenceId))
    ensures second == Header(ts, reporter.config.sessionId, reporter.streamId, old(reporter.sequenceId) + 1)
  {
    first := reporter.GetHeader(ts);
    second := reporter.GetHeader(ts);
  }
}
