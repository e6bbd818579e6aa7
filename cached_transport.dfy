/** A transport that sends through another one and keeps what it could not
    send in the file cache: previously cached packets are sent first, as one
    batch, and a live packet whose send fails is cached. */
module CachedTransport {
  import opened Common
  import opened FileCache

  // ---------------------------------------------------------------------
  // The underlying transport

  /** What a send hears back: the transport calls its completion with an
      error or with none, or never calls it. */
  datatype Reply = NoReply | Replied(error: Option<Error>)

  /** A call that reached a transport. */
  datatype Call = Started | Stopped | Sent(data: string)

  /** The HTTP and WebSocket transports, and a transport that never calls
      its completion (the one the unit tests use). */
  datatype Kind = Http(url: string) | WebSocket(url: string) | Silent

  /** Any `TrapTransport`: what it does with a packet on the network is
      outside the model, so every send may succeed or fail. The calls it
      receives are recorded, and so are the replies it gives, send by send. */
  class Transport {
    const kind: Kind
    var calls: seq<Call>
    ghost var replies: seq<Reply>

    constructor (kind: Kind)
      ensures this.kind == kind && calls == [] && replies == []
    {
      this.kind := kind;
      calls := [];
      replies := [];
    }

    method Start()
      modifies this
      ensures calls == old(calls) + [Started] && replies == old(replies)
    {
      calls := calls + [Started];
    }

    method Stop()
      modifies this
      ensures calls == old(calls) + [Stopped] && replies == old(replies)
    {
      calls := calls + [Stopped];
    }

    method Send(data: string) returns (reply: Reply)
      modifies this
      ensures calls == old(calls) + [Sent(data)] && replies == old(replies) + [reply]
      ensures kind == Silent ==> reply == NoReply
      ensures reply.Replied? && reply.error.Some? ==> reply.error == Some(TransportError)
    {
      calls := calls + [Sent(data)];
      if kind == Silent {
        replies := replies + [NoReply];
        return NoReply;
      }
      var completes: bool := *;
      var failed: bool := *;
      if !completes {
        reply := NoReply;
      } else if failed {
        reply := Replied(Some(TransportError));
      } else {
        reply := Replied(None);
      }
      replies := replies + [reply];
    }
  }

  // ---------------------------------------------------------------------
  // The batch of cached packets

  /** A cached packet without its first character and its last two: the
      `[` and the `\n]` the reporter frames every packet with. Swift traps
      on a text shorter than three characters. */
  function Unframed(content: string): string
    requires |content| >= 3
  {
    content[1..|content| - 2]
  }

  ghost predicate AllFramed(contents: seq<string>)
  {
    forall i :: 0 <= i < |contents| ==> |contents[i]| >= 3
  }

  /** The one message that resends every cached packet: their unframed
      texts, comma separated, in one pair of brackets. */
  function BatchMessage(contents: seq<string>): string
    requires AllFramed(contents)
  {
    "[" + Join(seq(|contents|, i requires 0 <= i < |contents| => Unframed(contents[i])), ",") + "]"
  }

  /** The reporter's framing: `[`, a newline, the frames, a newline, `]`. */
  function Framed(body: string): string
  {
    "[\n" + body + "\n]"
  }

  /** Unframing undoes the reporter's framing except for the leading
      newline. */
  lemma UnframedFramed(body: string)
    ensures |Framed(body)| >= 3
    ensures Unframed(Framed(body)) == "\n" + body
  {
    var f := Framed(body);
    assert f == ['['] + ("\n" + body) + ['\n', ']'];
  }

  /** A batch of cached reporter packets is a JSON array holding all their
      frames: each packet's body after a newline, in cache order. */
  lemma BatchOfPackets(bodies: seq<string>)
    ensures var packets := seq(|bodies|, i requires 0 <= i < |bodies| => Framed(bodies[i]));
      AllFramed(packets) &&
      BatchMessage(packets) == "[" + Join(seq(|bodies|, i requires 0 <= i < |bodies| => "\n" + bodies[i]), ",") + "]"
  {
    var packets := seq(|bodies|, i requires 0 <= i < |bodies| => Framed(bodies[i]));
    forall i | 0 <= i < |bodies| ensures |packets[i]| >= 3 && Unframed(packets[i]) == "\n" + bodies[i] {
      UnframedFramed(bodies[i]);
    }
    var unframed := seq(|packets|, i requires 0 <= i < |packets| => Unframed(packets[i]));
    assert unframed == seq(|bodies|, i requires 0 <= i < |bodies| => "\n" + bodies[i]);
  }

  /** Resending a single cached packet sends it as it was framed, but for the
      newline before the closing bracket. */
  lemma BatchOfOne(body: string)
    ensures AllFramed([Framed(body)]) && BatchMessage([Framed(body)]) == "[\n" + body + "]"
  {
    UnframedFramed(body);
    assert seq(1, i requires 0 <= i < 1 => Unframed([Framed(body)][i])) == ["\n" + body];
  }

  // ---------------------------------------------------------------------
  // The cache's records and their removal

  /** The contents of `files`, in their order. */
  function Contents(files: seq<FileEntry>): (r: seq<string>)
    ensures |r| == |files| && forall i :: 0 <= i < |r| ==> r[i] == files[i].content
  {
    seq(|files|, i requires 0 <= i < |files| => files[i].content)
  }

  /** Cached packets that the reporter framed can all be unframed, in the
      order `getAll` lists them. */
  lemma FramedContents(entries: seq<FileEntry>)
    requires forall e :: e in entries ==> |e.content| >= 3
    ensures AllFramed(Contents(Files(entries)))
  {
    var files := Files(entries);
    forall i | 0 <= i < |files| ensures |files[i].content| >= 3 {
      assert files[i] in multiset(files);
    }
  }

  lemma ContentsSnoc(files: seq<FileEntry>, i: nat)
    requires i < |files|
    ensures Contents(files[..i + 1]) == Contents(files[..i]) + [files[i].content]
  {
  }

  lemma {:induction false} SumWithout(s: seq<FileEntry>, paths: set<string>)
    ensures SumSizes(Without(s, paths)) <= SumSizes(s)
  {
    if s != [] {
      SumWithout(s[1..], paths);
      var head := if s[0].path in paths then [] else [s[0]];
      SumConcat(head, Without(s[1..], paths));
    }
  }

  /** One more record deleted: its path joins the removed ones. */
  lemma DeleteStep(start: seq<FileEntry>, targets: seq<FileEntry>, i: nat)
    requires i < |targets|
    ensures Without(Without(start, PathSet(targets[..i])), {targets[i].path}) == Without(start, PathSet(targets[..i + 1]))
  {
    assert targets[..i + 1] == targets[..i] + [targets[i]];
    PathSetConcat(targets[..i], [targets[i]]);
    assert PathSet([targets[i]]) == {targets[i].path};
    WithoutTwice(start, PathSet(targets[..i]), {targets[i].path});
  }

  class TrapCachedTransport {
    const underlying: Transport
    /** Absent when the cache directory could not be set up. */
    const cache: Option<TrapFileCache>

    ghost predicate Valid()
      reads this, if cache.Some? then {cache.value, cache.value.directory} else {}
    {
      cache.Some? ==> cache.value.Valid()
    }

    /** Every cached file is a packet the reporter framed, so it can be
        unframed. */
    ghost predicate CacheFramed()
      reads this, if cache.Some? then {cache.value, cache.value.directory} else {}
    {
      cache.Some? ==> forall e :: e in cache.value.directory.entries ==> |e.content| >= 3
    }

    /** `init(with:config:)`: the cache lives in `directory` with the
        configured budget, or is absent when the directory is. */
    constructor (transport: Transport, directory: Option<Directory>, maxSize: nat)
      requires maxSize <= UInt64Max
      requires directory.Some? ==> directory.value.Valid()
      ensures Valid()
      ensures underlying == transport
      ensures cache.Some? <==> directory.Some?
      ensures cache.Some? ==> fresh(cache.value) && cache.value.directory == directory.value && cache.value.cacheSize == maxSize
    {
      underlying := transport;
      if directory.Some? {
        var c := new TrapFileCache(directory.value, maxSize);
        cache := Some(c);
      } else {
        cache := None;
      }
    }

    method Start()
      modifies underlying
      ensures underlying.calls == old(underlying.calls) + [Started]
    {
      underlying.Start();
    }

    method Stop()
      modifies underlying
      ensures underlying.calls == old(underlying.calls) + [Stopped]
    {
      underlying.Stop();
    }

    /** The contents of every cached record, oldest first. A record that
        cannot be read fails the whole read. */
    method ReadCached() returns (records: seq<Record>, r: Result<seq<string>>, ghost failedAt: nat)
      requires Valid()
      modifies if cache.Some? then {cache.value.directory} else {}
      ensures Valid()
      ensures cache.Some? ==> cache.value.directory.entries == old(cache.value.directory.entries)
      ensures cache.Some? && r.Ok? ==> cache.value.directory.refusals == old(cache.value.directory.refusals)
      ensures cache.Some? && r.Err? ==> Logged(old(cache.value.directory.refusals), cache.value.directory.refusals, Some(r.error))
      ensures cache.Some? && r.Err? ==>
        ReadFailed(Files(cache.value.directory.entries), failedAt, old(cache.value.directory.refusals), cache.value.directory.refusals)
      ensures cache.None? ==> r == Ok([]) && records == []
      ensures cache.Some? && r.Ok? ==> records == Records(Files(cache.value.directory.entries))
      ensures cache.Some? && r.Ok? ==> r.value == Contents(Files(cache.value.directory.entries))
      ensures r.Err? ==> r.error == IoError
    {
      if cache.None? {
        return [], Ok([]), 0;
      }
      var all := cache.value.GetAll();
      if all.Err? {
        return [], Err(all.error), 0;
      }
      records := all.value;
      ghost var targets := Files(cache.value.directory.entries);
      ghost var listed := cache.value.directory.entries;
      var contents: seq<string> := [];
      var i := 0;
      while i < |records|
        invariant 0 <= i <= |records|
        invariant Valid()
        invariant cache.value.directory.entries == listed
        invariant cache.value.directory.refusals == old(cache.value.directory.refusals)
        invariant contents == Contents(targets[..i])
      {
        var c := Content(cache.value.directory, records[i]);
        if c.Err? {
          return records, Err(IoError), i;
        }
        ghost var e :| e in cache.value.directory.entries && e.path == targets[i].path && e.content == c.value;
        SameFile(cache.value.directory.entries, e, targets[i]);
        ContentsSnoc(targets, i);
        contents := contents + [c.value];
        i := i + 1;
      }
      assert targets[..i] == targets;
      r, failedAt := Ok(contents), 0;
    }

    /** `cached.forEach { try $0.delete() }` after the batch went through:
        the records are deleted in order and the first failure ends it.
        `err` is that failure; without one every record is deleted. */
    method DeleteAll(records: seq<Record>, ghost targets: seq<FileEntry>) returns (ghost deleted: nat, ghost err: Option<Error>)
      requires Valid() && cache.Some?
      requires records == Records(targets)
      modifies cache.value.directory
      ensures Valid()
      ensures err.None? ==> deleted == |targets| && cache.value.directory.refusals == old(cache.value.directory.refusals)
      ensures err.Some? ==> deleted < |targets|
      ensures err.Some? ==> cache.value.directory.refusals == old(cache.value.directory.refusals) + [RemoveRefused(targets[deleted].path)]
      ensures cache.value.directory.entries == Without(old(cache.value.directory.entries), PathSet(targets[..deleted]))
    {
      var dir := cache.value.directory;
      ghost var start := dir.entries;
      WithoutNothing(start, {});
      assert PathSet(targets[..0]) == {};
      var i := 0;
      while i < |records|
        invariant 0 <= i <= |targets|
        invariant dir.Valid()
        invariant dir.entries == Without(start, PathSet(targets[..i]))
        invariant dir.refusals == old(dir.refusals)
      {
        var e := Delete(dir, records[i]);
        if e.Some? {
          deleted, err := i, e;
          return;
        }
        DeleteStep(start, targets, i);
        i := i + 1;
      }
      deleted, err := i, None;
    }

    /** `send(data:completionHandler:)`, with each completion run as soon
        as its send returns, the batch's first. `handled` lists the calls of
        the completion handler in order; `file` and `now` are the name and
        date the cache gives a live packet it keeps; `deleted` is the number
        of cached records removed after the batch went through and
        `deleteErr` the delete that stopped the removal, if one did;
        `pushErr` is the error of caching a failed live packet, which the
        handler never hears. If the cache cannot be read, the handler gets
        the error and nothing is sent, not even the live packet. */
    method Send(data: string, file: string, now: int)
      returns (cached: Result<seq<string>>, batchReply: Reply, liveReply: Reply, handled: seq<Option<Error>>,
               ghost readAt: nat, ghost deleted: nat, ghost deleteErr: Option<Error>,
               ghost pushErr: Option<Error>, ghost pushDeleted: nat)
      requires Valid() && CacheFramed()
      requires cache.Some? ==> SumSizes(cache.value.directory.entries) <= UInt64Max
      requires cache.Some? ==> forall e :: e in cache.value.directory.entries ==> e.path != file
      modifies underlying, if cache.Some? then {cache.value.directory} else {}
      ensures Valid()
      ensures cached.Err? ==>
        && cached.error == IoError
        && handled == [Some(cached.error)]
        && underlying.calls == old(underlying.calls)
        && underlying.replies == old(underlying.replies)
        && cache.Some?
        && cache.value.directory.entries == old(cache.value.directory.entries)
        && Logged(old(cache.value.directory.refusals), cache.value.directory.refusals, Some(cached.error))
        && ReadFailed(Files(old(cache.value.directory.entries)), readAt, old(cache.value.directory.refusals), cache.value.directory.refusals)
      ensures cached.Ok? ==>
        && (cache.None? ==> cached.value == [])
        && (cache.Some? ==> cached.value == Contents(Files(old(cache.value.directory.entries))))
        && AllFramed(cached.value)
        && underlying.calls == old(underlying.calls) + (if cached.value == [] then [] else [Sent(BatchMessage(cached.value))]) + [Sent(data)]
        && underlying.replies == old(underlying.replies) + (if cached.value == [] then [] else [batchReply]) + [liveReply]
        && (cached.value == [] ==> batchReply == NoReply)
        && handled == HandlerCalls(batchReply, liveReply)
      ensures underlying.kind == Silent ==> batchReply == NoReply && liveReply == NoReply
      ensures cache.Some? && cached.Ok? ==>
        && (batchReply == Replied(None) && deleteErr.None? ==> deleted == |cached.value|)
        && (deleteErr.Some? ==> batchReply == Replied(None) && deleted < |cached.value|)
        && (batchReply != Replied(None) ==> deleted == 0)
        && var afterBatch := Without(old(cache.value.directory.entries), PathSet(Files(old(cache.value.directory.entries))[..deleted]));
           if liveReply.Replied? && liveReply.error.Some? then
             && (pushErr.None? ==> cache.value.directory.entries == Pushed(afterBatch, cache.value.cacheSize, FileEntry(file, data, Utf8Size(data), now)))
             && (pushErr.Some? ==> forall e :: e in cache.value.directory.entries ==> e in afterBatch)
           else cache.value.directory.entries == afterBatch
      ensures cache.Some? && cached.Ok? ==>
        Logged(old(cache.value.directory.refusals) + RefusedDelete(Files(old(cache.value.directory.entries)), deleted, deleteErr),
               cache.value.directory.refusals, pushErr)
      ensures cache.Some? && cached.Ok? && pushErr.Some? ==>
        PushFailed(Without(old(cache.value.directory.entries), PathSet(Files(old(cache.value.directory.entries))[..deleted])),
                   cache.value.cacheSize, file, pushDeleted,
                   old(cache.value.directory.refusals) + RefusedDelete(Files(old(cache.value.directory.entries)), deleted, deleteErr),
                   cache.value.directory.refusals, cache.value.directory.entries)
      ensures cache.None? ==> deleteErr.None? && pushErr.None?
      ensures |data| >= 3 ==> CacheFramed()
    {
      var records;
      records, cached, readAt := ReadCached();
      if cached.Err? {
        return cached, NoReply, NoReply, [Some(cached.error)], readAt, 0, None, None, 0;
      }
      ghost var targets := if cache.Some? then Files(cache.value.directory.entries) else [];
      batchReply, liveReply, deleted, deleteErr, pushErr, pushDeleted := SendAll(records, cached.value, targets, data, file, now);
      handled := HandlerCalls(batchReply, liveReply);
    }

    /** What `send` does once the cache was read: the batch of `contents`,
        the cached packets, then the live packet. */
    method SendAll(records: seq<Record>, contents: seq<string>, ghost targets: seq<FileEntry>, data: string, file: string, now: int)
      returns (batchReply: Reply, liveReply: Reply, ghost deleted: nat, ghost deleteErr: Option<Error>,
               ghost pushErr: Option<Error>, ghost pushDeleted: nat)
      requires Valid() && CacheFramed()
      requires cache.None? ==> contents == []
      requires cache.Some? ==>
        && targets == Files(cache.value.directory.entries)
        && records == Records(targets) && contents == Contents(targets)
        && SumSizes(cache.value.directory.entries) <= UInt64Max
        && forall e :: e in cache.value.directory.entries ==> e.path != file
      modifies underlying, if cache.Some? then {cache.value.directory} else {}
      ensures Valid()
      ensures AllFramed(contents)
      ensures underlying.calls == old(underlying.calls) + (if contents == [] then [] else [Sent(BatchMessage(contents))]) + [Sent(data)]
      ensures underlying.replies == old(underlying.replies) + (if contents == [] then [] else [batchReply]) + [liveReply]
      ensures contents == [] ==> batchReply == NoReply
      ensures underlying.kind == Silent ==> batchReply == NoReply && liveReply == NoReply
      ensures cache.Some? ==>
        && (batchReply == Replied(None) && deleteErr.None? ==> deleted == |contents|)
        && (deleteErr.Some? ==> batchReply == Replied(None) && deleted < |contents|)
        && (batchReply != Replied(None) ==> deleted == 0)
        && var afterBatch := Without(old(cache.value.directory.entries), PathSet(targets[..deleted]));
           if liveReply.Replied? && liveReply.error.Some? then
             && (pushErr.None? ==> cache.value.directory.entries == Pushed(afterBatch, cache.value.cacheSize, FileEntry(file, data, Utf8Size(data), now)))
             && (pushErr.Some? ==> forall e :: e in cache.value.directory.entries ==> e in afterBatch)
           else cache.value.directory.entries == afterBatch
      ensures cache.Some? ==>
        Logged(old(cache.value.directory.refusals) + RefusedDelete(targets, deleted, deleteErr), cache.value.directory.refusals, pushErr)
      ensures cache.Some? && pushErr.Some? ==>
        PushFailed(Without(old(cache.value.directory.entries), PathSet(targets[..deleted])), cache.value.cacheSize, file, pushDeleted,
                   old(cache.value.directory.refusals) + RefusedDelete(targets, deleted, deleteErr),
                   cache.value.directory.refusals, cache.value.directory.entries)
      ensures cache.None? ==> deleteErr.None? && pushErr.None?
      ensures |data| >= 3 ==> CacheFramed()
    {
      ghost var start := if cache.Some? then cache.value.directory.entries else [];
      ghost var refused := if cache.Some? then cache.value.directory.refusals else [];
      if cache.Some? {
        FramedContents(start);
      }
      batchReply, deleted, deleteErr := SendBatch(records, contents, targets);
      ghost var afterBatch := if cache.Some? then cache.value.directory.entries else [];
      if cache.Some? {
        WithoutSubset(start, PathSet(targets[..deleted]));
        SumWithout(start, PathSet(targets[..deleted]));
        assert cache.value.directory.refusals == refused + RefusedDelete(targets, deleted, deleteErr);
      }
      liveReply, pushErr, pushDeleted := SendLive(data, file, now);
      if cache.Some? && |data| >= 3 {
        PushedMembers(afterBatch, cache.value.cacheSize, FileEntry(file, data, Utf8Size(data), now));
      }
    }

    /** The batch of cached packets, when there are any, and the deletion of
        their records once it went through. */
    method SendBatch(records: seq<Record>, contents: seq<string>, ghost targets: seq<FileEntry>)
      returns (reply: Reply, ghost deleted: nat, ghost deleteErr: Option<Error>)
      requires Valid() && AllFramed(contents)
      requires cache.None? ==> contents == []
      requires cache.Some? ==> records == Records(targets) && |contents| == |targets|
      modifies underlying, if cache.Some? then {cache.value.directory} else {}
      ensures Valid()
      ensures underlying.calls == old(underlying.calls) + (if contents == [] then [] else [Sent(BatchMessage(contents))])
      ensures contents == [] || underlying.kind == Silent ==> reply == NoReply
      ensures reply.Replied? && reply.error.Some? ==> reply.error == Some(TransportError)
      ensures reply != Replied(None) ==> deleted == 0 && deleteErr.None?
      ensures reply == Replied(None) && deleteErr.None? ==> deleted == |targets|
      ensures deleteErr.Some? ==> cache.Some? && deleted < |targets|
      ensures cache.Some? ==>
        cache.value.directory.entries == Without(old(cache.value.directory.entries), PathSet(targets[..deleted]))
      ensures underlying.replies == old(underlying.replies) + (if contents == [] then [] else [reply])
      ensures cache.Some? && deleteErr.None? ==> cache.value.directory.refusals == old(cache.value.directory.refusals)
      ensures deleteErr.Some? ==>
        cache.value.directory.refusals == old(cache.value.directory.refusals) + [RemoveRefused(targets[deleted].path)]
    {
      reply, deleted, deleteErr := NoReply, 0, None;
      if cache.Some? {
        WithoutNothing(cache.value.directory.entries, {});
        assert PathSet(targets[..0]) == {};
      }
      if contents != [] {
        reply := underlying.Send(BatchMessage(contents));
        if reply == Replied(None) {
          deleted, deleteErr := DeleteAll(records, targets);
        }
      }
    }

    /** The live packet; if its send fails, it is pushed to the cache, and
        `pushErr`, the error of that push, is dropped. */
    method SendLive(data: string, file: string, now: int) returns (reply: Reply, ghost pushErr: Option<Error>, ghost pushDeleted: nat)
      requires Valid()
      requires cache.Some? ==> SumSizes(cache.value.directory.entries) <= UInt64Max
      requires cache.Some? ==> forall e :: e in cache.value.directory.entries ==> e.path != file
      modifies underlying, if cache.Some? then {cache.value.directory} else {}
      ensures Valid()
      ensures underlying.calls == old(underlying.calls) + [Sent(data)]
      ensures underlying.kind == Silent ==> reply == NoReply
      ensures reply.Replied? && reply.error.Some? ==> reply.error == Some(TransportError)
      ensures pushErr.Some? ==> pushErr == Some(IoError) && cache.Some? && reply.Replied? && reply.error.Some?
      ensures cache.Some? ==>
        if reply.Replied? && reply.error.Some? then
          && (pushErr.None? ==> cache.value.directory.entries == Pushed(old(cache.value.directory.entries), cache.value.cacheSize, FileEntry(file, data, Utf8Size(data), now)))
          && (pushErr.Some? ==> forall e :: e in cache.value.directory.entries ==> e in old(cache.value.directory.entries))
        else cache.value.directory.entries == old(cache.value.directory.entries)
      ensures underlying.replies == old(underlying.replies) + [reply]
      ensures cache.Some? ==> Logged(old(cache.value.directory.refusals), cache.value.directory.refusals, pushErr)
      ensures cache.Some? && pushErr.Some? ==>
        PushFailed(old(cache.value.directory.entries), cache.value.cacheSize, file, pushDeleted,
                   old(cache.value.directory.refusals), cache.value.directory.refusals, cache.value.directory.entries)
    {
      reply := underlying.Send(data);
      pushErr, pushDeleted := None, 0;
      if reply.Replied? && reply.error.Some? && cache.Some? {
        pushErr, pushDeleted := cache.value.Push(data, file, now);
      }
    }
  }

  /** How a read of the cache over `listing` can fail: the listing was
      refused, or the read of the file at `at` in it was. */
  ghost predicate ReadFailed(listing: seq<FileEntry>, at: nat, before: seq<Refusal>, after: seq<Refusal>)
  {
    || after == before + [ListRefused]
    || (at < |listing| && after == before + [ReadRefused(listing[at].path)])
  }

  /** The refusal a deletion run over `listing` ended with, if it failed at
      the file after the `deleted` ones it removed. */
  ghost function RefusedDelete(listing: seq<FileEntry>, deleted: nat, err: Option<Error>): seq<Refusal>
  {
    if err.Some? && deleted < |listing| then [RemoveRefused(listing[deleted].path)] else []
  }

  /** What the completion handler hears: the batch's error, if it failed,
      then success of the live send, if it went through. A failed live send
      is cached instead of reported. */
  function HandlerCalls(batchReply: Reply, liveReply: Reply): (r: seq<Option<Error>>)
    ensures |r| <= 2
    ensures None in r <==> liveReply == Replied(None)
    ensures (|r| > 0 && r[0].Some?) <==> batchReply.Replied? && batchReply.error.Some?
  {
    (if batchReply.Replied? && batchReply.error.Some? then [batchReply.error] else [])
    + (if liveReply == Replied(None) then [None] else [])
  }

  lemma SameFile(entries: seq<FileEntry>, e: FileEntry, f: FileEntry)
    requires DistinctPaths(entries) && e in entries && f in multiset(Files(entries)) && e.path == f.path
    ensures e == f
  {
    assert f in entries;
    SamePathSameEntry(entries, e, f);
  }

  /** A push keeps only entries it had, and the new file. */
  lemma PushedMembers(listing: seq<FileEntry>, budget: nat, file: FileEntry)
    ensures forall e :: e in Pushed(listing, budget, file) ==> e in listing || e == file
  {
    WithoutSubset(listing, PathSet(Evicted(Files(listing), budget)));
  }

  // ---------------------------------------------------------------------
  // The unit test of the cached transport

  /** "Test Data" sent through a cached transport over a silent transport
      with an empty cache goes out as it is, with no batch before it and
      no call of the handler; a failed listing sends nothing. */
  method SendToEmptyCache(transport: TrapCachedTransport, mock: Transport, dir: Directory)
    returns (cached: Result<seq<string>>, handled: seq<Option<Error>>)
    requires transport.Valid() && transport.underlying == mock && mock.kind == Silent
    requires transport.cache.Some? && transport.cache.value.directory == dir && dir.entries == []
    modifies mock, dir
    ensures cached.Ok? ==> mock.calls == old(mock.calls) + [Sent("Test Data")] && handled == []
    ensures cached.Err? ==> mock.calls == old(mock.calls) && handled == [Some(IoError)]
  {
    assert Contents(Files(dir.entries)) == [];
    var batchReply, liveReply;
    ghost var readAt, deleted, deleteErr, pushErr, pushDeleted;
    cached, batchReply, liveReply, handled, readAt, deleted, deleteErr, pushErr, pushDeleted := transport.Send("Test Data", "packet", 0);
    if cached.Ok? {
      assert cached.value == [];
      assert batchReply == NoReply && liveReply == NoReply;
      assert handled == HandlerCalls(NoReply, NoReply) == [];
    }
  }

  /** Start, send "Test Data" and stop through a cached transport over a
      transport that never completes, with an empty cache: the underlying
      transport sees the start, the packet itself and the stop, and the
      handler is never called. The cache may still fail to list its
      directory; then the handler gets that error and the packet is not
      sent. */
  method ForwardsToUnderlying() returns (calls: seq<Call>, handled: seq<Option<Error>>, cached: Result<seq<string>>)
    ensures cached.Ok? ==> calls == [Started, Sent("Test Data"), Stopped] && handled == []
    ensures cached.Err? ==> calls == [Started, Stopped] && handled == [Some(IoError)]
  {
    var mock := new Transport(Silent);
    var dir := new Directory([]);
    var transport := new TrapCachedTransport(mock, Some(dir), DefaultMaxSize);
    transport.Start();
    cached, handled := SendToEmptyCache(transport, mock, dir);
    ghost var sent := mock.calls;
    transport.Stop();
    calls := mock.calls;
    assert calls == sent + [Stopped];
  }
}
