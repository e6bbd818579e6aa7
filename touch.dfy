/** The raw touch recognizer: it gives every active touch a finger slot and
    turns each touch sample into a frame carrying that slot's number. */
module Touch {
  import opened Common
  import opened Datasource

  /** The event types of the touch frames. */
  const TouchStartEventType: int := 100
  const TouchMoveEventType: int := 101
  const TouchStopEventType: int := 102


  /** A touch, by identity. */
  type TouchId = nat

  /** What one `UITouch` reports: whether it is a direct (finger) touch,
      its normalised timestamp, location, force and major radius (the
      floating-point values as the bit patterns of their `Double`s). */
  datatype Sample = Sample(direct: bool, timestamp: int, x: bv64, y: bv64, force: bv64, majorRadius: bv64)

  /** One touch of the set a handler receives: its identity, its current
      sample, and the coalesced samples the event has for it, if any. */
  datatype TouchInput = TouchInput(id: TouchId, current: Sample, coalesced: Option<seq<Sample>>)

  /** The samples a handler reports for a touch: the coalesced ones when
      the collector is configured for them and the event has them,
      otherwise the touch itself. */
  function RawSamples(t: TouchInput, coalesce: bool): seq<Sample>
  {
    if coalesce && t.coalesced.Some? then t.coalesced.value else [t.current]
  }

  /** The frame `[type, ts, finger, x, y, force, majorRadius]`. */
  function Frame(eventType: int, s: Sample, finger: int): DataType
  {
    Array([Int(eventType), Int64(s.timestamp), Int(finger), Double(s.x), Double(s.y), Double(s.force), Double(s.majorRadius)])
  }

  /** The direct samples of `samples`, in order. */
  function DirectSamples(samples: seq<Sample>): (r: seq<Sample>)
    ensures |r| <= |samples|
    ensures forall k :: 0 <= k < |r| ==> r[k].direct
    ensures (forall k :: 0 <= k < |samples| ==> samples[k].direct) ==> r == samples
    ensures (forall k :: 0 <= k < |samples| ==> !samples[k].direct) ==> r == []
  {
    if samples == [] then []
    else
      var rest := DirectSamples(samples[1..]);
      assert forall k :: 1 <= k < |samples| ==> samples[k] == samples[1..][k - 1];
      if samples[0].direct then [samples[0]] + rest else rest
  }

  /** Filtering keeps the order: the direct samples of two runs of
      samples are those of the first, then those of the second. */
  lemma {:induction false} DirectSamplesAppend(a: seq<Sample>, b: seq<Sample>)
    ensures DirectSamples(a + b) == DirectSamples(a) + DirectSamples(b)
  {
    if a == [] {
      assert a + b == b;
    } else {
      var head := if a[0].direct then [a[0]] else [];
      calc {
        DirectSamples(a + b);
      == { DirectSamplesHeadAppend(a, b); }
        head + DirectSamples(a[1..] + b);
      == { DirectSamplesAppend(a[1..], b); }
        head + (DirectSamples(a[1..]) + DirectSamples(b));
      == { SeqAssoc(head, DirectSamples(a[1..]), DirectSamples(b)); }
        (head + DirectSamples(a[1..])) + DirectSamples(b);
      == { DirectSamplesHead(a); }
        DirectSamples(a) + DirectSamples(b);
      }
    }
  }

  lemma SeqAssoc<T>(x: seq<T>, y: seq<T>, z: seq<T>)
    ensures x + (y + z) == (x + y) + z
  {
  }

  lemma DirectSamplesHeadAppend(a: seq<Sample>, b: seq<Sample>)
    requires a != []
    ensures DirectSamples(a + b) == (if a[0].direct then [a[0]] else []) + DirectSamples(a[1..] + b)
  {
    assert (a + b)[0] == a[0] && (a + b)[1..] == a[1..] + b;
    DirectSamplesHead(a + b);
  }

  /** The direct samples are exactly the samples that are direct. */
  lemma DirectSamplesMembers(samples: seq<Sample>)
    ensures forall x :: x in DirectSamples(samples) <==> x in samples && x.direct
  {
    forall x {
      DirectSampleMember(samples, x);
    }
  }

  lemma {:induction false} DirectSampleMember(samples: seq<Sample>, x: Sample)
    ensures x in DirectSamples(samples) <==> x in samples && x.direct
  {
    if samples != [] {
      DirectSamplesHead(samples);
      DirectSampleMember(samples[1..], x);
      assert samples == [samples[0]] + samples[1..];
    }
  }

  lemma DirectSamplesHead(s: seq<Sample>)
    requires s != []
    ensures DirectSamples(s) == (if s[0].direct then [s[0]] else []) + DirectSamples(s[1..])
  {
  }

  /** The pairs saved for `samples`: a frame, keyed by its timestamp, for
      every direct sample; other samples are dropped. */
  function SampleFrames(eventType: int, samples: seq<Sample>, finger: int): seq<Event>
  {
    var d := DirectSamples(samples);
    seq(|d|, k requires 0 <= k < |d| => (d[k].timestamp, Frame(eventType, d[k], finger)))
  }

  /** Direct samples each give one frame, in order; indirect ones none. */
  lemma SampleFramesOfDirect(eventType: int, samples: seq<Sample>, finger: int)
    ensures (forall k :: 0 <= k < |samples| ==> samples[k].direct) ==>
      |SampleFrames(eventType, samples, finger)| == |samples| &&
      forall k :: 0 <= k < |samples| ==>
        SampleFrames(eventType, samples, finger)[k] == (samples[k].timestamp, Frame(eventType, samples[k], finger))
    ensures (forall k :: 0 <= k < |samples| ==> !samples[k].direct) ==> SampleFrames(eventType, samples, finger) == []
  {
  }

  // ---------------------------------------------------------------------
  // The slot table

  type Table = seq<Option<TouchId>>

  /** The table a recognizer starts with: five free slots. */
  const EmptyTable: Table := [None, None, None, None, None]

  /** `firstIndex(of: nil)`. */
  function FirstFree(f: Table): (r: Option<nat>)
    ensures r.Some? ==> r.value < |f| && f[r.value] == None && forall j :: 0 <= j < r.value ==> f[j] != None
    ensures r.None? <==> forall j :: 0 <= j < |f| ==> f[j] != None
  {
    if f == [] then None
    else if f[0] == None then Some(0)
    else match FirstFree(f[1..])
      case Some(i) => Some(i + 1)
      case None => None
  }

  /** `firstIndex(of: touch) ?? -1`. */
  function IndexOf(f: Table, t: TouchId): (r: int)
    ensures -1 <= r < |f|
    ensures r >= 0 ==> f[r] == Some(t) && forall j :: 0 <= j < r ==> f[j] != Some(t)
    ensures r == -1 <==> forall j :: 0 <= j < |f| ==> f[j] != Some(t)
  {
    if f == [] then -1
    else if f[0] == Some(t) then 0
    else
      var i := IndexOf(f[1..], t);
      if i == -1 then -1 else i + 1
  }

  /** The corrected allocation of a slot for a new touch: the lowest free
      slot, or a new one at the end. The finger number reported is the
      slot's index. */
  function Allocate(f: Table, t: TouchId): (r: (Table, nat))
    ensures r.1 < |r.0| && r.0[r.1] == Some(t)
    ensures FirstFree(f).Some? ==> r.1 == FirstFree(f).value && r.0 == f[r.1 := Some(t)]
    ensures FirstFree(f).None? ==> r.1 == |f| && r.0 == f + [Some(t)]
  {
    match FirstFree(f)
    case Some(i) => (f[i := Some(t)], i)
    case None => (f + [Some(t)], |f|)
  }

  /** The slot table as `touchesBegan` leaves it when the table is full:
      the touch is appended and the finger reported is the new count. */
  function AllocateAsWritten(f: Table, t: TouchId): (Table, nat)
  {
    match FirstFree(f)
    case Some(i) => (f[i := Some(t)], i)
    case None => (f + [Some(t)], |f| + 1)
  }

  /** Both allocations store the touch in the same slot. With a free slot
      they report the same finger; on a full table the code reports one
      more than the slot it used. */
  lemma AllocationsCompared(f: Table, t: TouchId)
    ensures AllocateAsWritten(f, t).0 == Allocate(f, t).0
    ensures (exists j :: 0 <= j < |f| && f[j] == None) ==> AllocateAsWritten(f, t) == Allocate(f, t)
    ensures (forall j :: 0 <= j < |f| ==> f[j] != None) ==> AllocateAsWritten(f, t).1 == Allocate(f, t).1 + 1
  {
  }

  /** A sixth simultaneous touch: as written, it begins as finger 6 but
      moves and ends as finger 5, the slot it was stored in. */
  lemma SixthTouchAsWritten(f: Table, t: TouchId)
    requires |f| == |EmptyTable| && forall j :: 0 <= j < |f| ==> f[j].Some? && f[j] != Some(t)
    ensures AllocateAsWritten(f, t).1 == 6
    ensures IndexOf(AllocateAsWritten(f, t).0, t) == 5
  {
    var g := AllocateAsWritten(f, t).0;
    assert g == f + [Some(t)];
    assert g[5] == Some(t);
  }

  /** The finger a touch begins with is the one it is found under
      afterwards, for every table that does not hold it yet. */
  lemma AllocatedIsFound(f: Table, t: TouchId)
    requires forall j :: 0 <= j < |f| ==> f[j] != Some(t)
    ensures IndexOf(Allocate(f, t).0, t) == Allocate(f, t).1
  {
    var (g, i) := Allocate(f, t);
    forall j | 0 <= j < i ensures g[j] != Some(t) {
      assert g[j] == f[j];
    }
  }

  /** Clearing the slot of a touch that began in a free slot restores the
      table; one that began in an appended slot leaves that slot free. */
  lemma BeginThenEnd(f: Table, t: TouchId)
    requires forall j :: 0 <= j < |f| ==> f[j] != Some(t)
    ensures FirstFree(f).Some? ==> Allocate(f, t).0[Allocate(f, t).1 := None] == f
    ensures FirstFree(f).None? ==> Allocate(f, t).0[Allocate(f, t).1 := None] == f + [None]
  {
    var a := Allocate(f, t);
    match FirstFree(f)
    case Some(i) =>
      assert a.0[i := None] == f;
    case None =>
      assert a.0[|f| := None] == f + [None];
  }

  // ---------------------------------------------------------------------
  // The handlers

  datatype Phase = Began | Moved | Ended | Cancelled

  function EventType(phase: Phase): int
  {
    match phase
    case Began => TouchStartEventType
    case Moved => TouchMoveEventType
    case _ => TouchStopEventType
  }

  /** The finger number a handler reports for a touch: when it begins,
      the number `touchesBegan` computes (the slot it is given, but one
      more on a full table); otherwise the slot it is found in (-1 when it
      is not in the table). */
  function Finger(phase: Phase, f: Table, t: TouchId): int
  {
    if phase == Began then AllocateAsWritten(f, t).1 else IndexOf(f, t)
  }

  /** The table after a handler has seen a touch: a begin allocates it a
      slot, a move changes nothing, an end or a cancel clears the slot it
      is found in, if any. */
  function NextTable(phase: Phase, f: Table, t: TouchId): Table
  {
    match phase
    case Began => AllocateAsWritten(f, t).0
    case Moved => f
    case _ => if IndexOf(f, t) >= 0 then f[IndexOf(f, t) := None] else f
  }

  /** One touch of a handler's set: the slot bookkeeping, and the frames of
      its samples under its finger number. */
  function Step(phase: Phase, f: Table, t: TouchInput, coalesce: bool): (Table, seq<Event>)
  {
    (NextTable(phase, f, t.id), SampleFrames(EventType(phase), RawSamples(t, coalesce), Finger(phase, f, t.id)))
  }

  /** No touch holds two slots. */
  ghost predicate Distinct(f: Table)
  {
    forall i, j :: 0 <= i < j < |f| && f[i].Some? ==> f[i] != f[j]
  }

  /** A touch that begins in a free slot keeps its finger number while it
      moves and when it ends or is cancelled; one that begins on a full
      table is reported one lower afterwards than when it began. Either
      way it holds no slot after its end, and no touch ever holds two. */
  lemma SameFingerThroughout(f: Table, t: TouchId, phase: Phase)
    requires Distinct(f) && forall j :: 0 <= j < |f| ==> f[j] != Some(t)
    requires phase != Began
    ensures FirstFree(f).Some? ==> Finger(phase, NextTable(Began, f, t), t) == Finger(Began, f, t)
    ensures FirstFree(f).None? ==> Finger(phase, NextTable(Began, f, t), t) == Finger(Began, f, t) - 1
    ensures Distinct(NextTable(Began, f, t))
    ensures Distinct(NextTable(phase, NextTable(Began, f, t), t))
    ensures phase != Moved ==> IndexOf(NextTable(phase, NextTable(Began, f, t), t), t) == -1
  {
    AllocatedIsFound(f, t);
    AllocationsCompared(f, t);
    var g := NextTable(Began, f, t);
    var i := Allocate(f, t).1;
    forall a, b | 0 <= a < b < |g| && g[a].Some? ensures g[a] != g[b] {
      if a != i && b != i {
        assert g[a] == f[a] && g[b] == f[b];
      }
    }
    if phase != Moved {
      var h := g[i := None];
      assert NextTable(phase, g, t) == h;
      forall j | 0 <= j < |h| ensures h[j] != Some(t) {
        if j != i {
          assert h[j] == g[j];
        }
      }
    }
  }

  /** Every touch of the set in turn; the frames in order. */
  function Steps(phase: Phase, f: Table, touches: seq<TouchInput>, coalesce: bool): (Table, seq<Event>)
  {
    if touches == [] then (f, [])
    else
      var before := Steps(phase, f, touches[..|touches| - 1], coalesce);
      var last := Step(phase, before.0, touches[|touches| - 1], coalesce);
      (last.0, before.1 + last.1)
  }

  /** Handling one more touch is one more step after the others. */
  lemma StepsPrefix(phase: Phase, f: Table, touches: seq<TouchInput>, i: nat, coalesce: bool)
    requires i < |touches|
    ensures Steps(phase, f, touches[..i + 1], coalesce)
         == (Step(phase, Steps(phase, f, touches[..i], coalesce).0, touches[i], coalesce).0,
             Steps(phase, f, touches[..i], coalesce).1 + Step(phase, Steps(phase, f, touches[..i], coalesce).0, touches[i], coalesce).1)
  {
    assert touches[..i + 1][..i] == touches[..i];
  }

  /** A move never changes the table. */
  lemma {:induction false} MovesKeepTable(f: Table, touches: seq<TouchInput>, coalesce: bool)
    ensures Steps(Moved, f, touches, coalesce).0 == f
  {
    if touches != [] {
      MovesKeepTable(f, touches[..|touches| - 1], coalesce);
    }
  }

  /** The table never shrinks below its five initial slots, and only a
      begin grows it. */
  lemma {:induction false} TableNeverShrinks(phase: Phase, f: Table, touches: seq<TouchInput>, coalesce: bool)
    ensures |Steps(phase, f, touches, coalesce).0| >= |f|
    ensures phase != Began ==> |Steps(phase, f, touches, coalesce).0| == |f|
  {
    if touches != [] {
      TableNeverShrinks(phase, f, touches[..|touches| - 1], coalesce);
    }
  }

  class TouchRecognizer {
    var fingers: Table

    /** The table starts as five empty slots. */
    constructor ()
      ensures fingers == EmptyTable
    {
      fingers := EmptyTable;
    }

    /** The loop every handler runs over its touches (`touches.forEach`).
        It returns the pairs saved to the delegate, in order. */
    method Handle(phase: Phase, touches: seq<TouchInput>, coalesce: bool) returns (saved: seq<Event>)
      modifies this
      ensures (fingers, saved) == Steps(phase, old(fingers), touches, coalesce)
    {
      saved := [];
      var i := 0;
      while i < |touches|
        invariant 0 <= i <= |touches|
        invariant fingers == Steps(phase, old(fingers), touches[..i], coalesce).0
        invariant saved == Steps(phase, old(fingers), touches[..i], coalesce).1
      {
        StepsPrefix(phase, old(fingers), touches, i, coalesce);
        var step := Step(phase, fingers, touches[i], coalesce);
        fingers := step.0;
        saved := saved + step.1;
        i := i + 1;
      }
      assert touches[..i] == touches;
    }

    /** `touchesBegan`. */
    method TouchesBegan(touches: seq<TouchInput>, coalesce: bool) returns (saved: seq<Event>)
      modifies this
      ensures (fingers, saved) == Steps(Began, old(fingers), touches, coalesce)
    {
      saved := Handle(Began, touches, coalesce);
    }

    /** `touchesMoved`. */
    method TouchesMoved(touches: seq<TouchInput>, coalesce: bool) returns (saved: seq<Event>)
      modifies this
      ensures (fingers, saved) == Steps(Moved, old(fingers), touches, coalesce)
      ensures fingers == old(fingers)
    {
      saved := Handle(Moved, touches, coalesce);
      MovesKeepTable(old(fingers), touches, coalesce);
    }

    /** `touchesEnded`. */
    method TouchesEnded(touches: seq<TouchInput>, coalesce: bool) returns (saved: seq<Event>)
      modifies this
      ensures (fingers, saved) == Steps(Ended, old(fingers), touches, coalesce)
    {
      saved := Handle(Ended, touches, coalesce);
    }

    /** `touchesCancelled`. */
    method TouchesCancelled(touches: seq<TouchInput>, coalesce: bool) returns (saved: seq<Event>)
      modifies this
      ensures (fingers, saved) == Steps(Cancelled, old(fingers), touches, coalesce)
    {
      saved := Handle(Cancelled, touches, coalesce);
    }

    /** `gestureRecognizer(_:shouldReceive:)`: a touch on a control is not
        received; it is begun at once, outside any event, and never ended
        by this recognizer. */
    method ShouldReceive(t: TouchId, current: Sample, onControl: bool) returns (receive: bool, saved: seq<Event>)
      modifies this
      ensures receive == !onControl
      ensures onControl ==> (fingers, saved) == Steps(Began, old(fingers), [TouchInput(t, current, None)], false)
      ensures !onControl ==> fingers == old(fingers) && saved == []
    {
      if !onControl {
        return true, [];
      }
      saved := TouchesBegan([TouchInput(t, current, None)], false);
      receive := false;
    }
  }

  // ---------------------------------------------------------------------
  // The unit test of the recognizer

  /** One direct touch begins, moves and ends, then begins again and is
      cancelled: every frame carries finger 0, and the cancel is a stop
      frame. */
  method BeginMoveEndBeginCancel(t: TouchId, s1: Sample, s3: Sample, s5: Sample, s21: Sample, s31: Sample)
    returns (frames: seq<Event>)
    requires s1.direct && s3.direct && s5.direct && s21.direct && s31.direct
    ensures frames == [(s1.timestamp, Frame(100, s1, 0)), (s3.timestamp, Frame(101, s3, 0)),
                       (s5.timestamp, Frame(102, s5, 0)), (s21.timestamp, Frame(100, s21, 0)),
                       (s31.timestamp, Frame(102, s31, 0))]
  {
    var r := new TouchRecognizer();
    FirstTouch(t);
    var a := r.TouchesBegan([TouchInput(t, s1, None)], false);
    OneDirectTouch(Began, EmptyTable, t, s1);
    assert a == [(s1.timestamp, Frame(100, s1, 0))];
    var b := r.TouchesMoved([TouchInput(t, s3, None)], false);
    OneDirectTouch(Moved, r.fingers, t, s3);
    assert b == [(s3.timestamp, Frame(101, s3, 0))];
    var c := r.TouchesEnded([TouchInput(t, s5, None)], false);
    OneDirectTouch(Ended, NextTable(Began, EmptyTable, t), t, s5);
    assert c == [(s5.timestamp, Frame(102, s5, 0))];
    var d := r.TouchesBegan([TouchInput(t, s21, None)], false);
    OneDirectTouch(Began, EmptyTable, t, s21);
    assert d == [(s21.timestamp, Frame(100, s21, 0))];
    var e := r.TouchesCancelled([TouchInput(t, s31, None)], false);
    OneDirectTouch(Cancelled, NextTable(Began, EmptyTable, t), t, s31);
    assert e == [(s31.timestamp, Frame(102, s31, 0))];
    frames := a + b + c + d + e;
    Concat5(a, b, c, d, e);
  }

  lemma Concat5<T>(a: seq<T>, b: seq<T>, c: seq<T>, d: seq<T>, e: seq<T>)
    requires |a| == |b| == |c| == |d| == |e| == 1
    ensures a + b + c + d + e == [a[0], b[0], c[0], d[0], e[0]]
  {
  }

  /** Handling a set of one touch with one direct sample saves that
      sample's frame under the touch's finger number. */
  lemma OneDirectTouch(phase: Phase, f: Table, t: TouchId, s: Sample)
    requires s.direct
    ensures Steps(phase, f, [TouchInput(t, s, None)], false)
         == (NextTable(phase, f, t), [(s.timestamp, Frame(EventType(phase), s, Finger(phase, f, t)))])
  {
    var touches := [TouchInput(t, s, None)];
    assert touches[..0] == [];
    assert Steps(phase, f, [], false) == (f, []);
    SampleFramesOfDirect(EventType(phase), [s], Finger(phase, f, t));
    var frames := SampleFrames(EventType(phase), [s], Finger(phase, f, t));
    assert frames == [(s.timestamp, Frame(EventType(phase), s, Finger(phase, f, t)))];
    assert Step(phase, f, touches[0], false) == (NextTable(phase, f, t), frames);
    assert [] + frames == frames;
  }

  /** The first touch on a fresh recognizer takes slot 0, and ending or
      cancelling it frees that slot again. */
  lemma FirstTouch(t: TouchId)
    ensures NextTable(Began, EmptyTable, t) == [Some(t), None, None, None, None]
    ensures Finger(Began, EmptyTable, t) == 0
    ensures forall p :: p != Began ==> Finger(p, NextTable(Began, EmptyTable, t), t) == 0
    ensures forall p :: p != Began && p != Moved ==> NextTable(p, NextTable(Began, EmptyTable, t), t) == EmptyTable
  {
    assert FirstFree(EmptyTable) == Some(0);
    var g := [Some(t), None, None, None, None];
    assert IndexOf(g, t) == 0;
  }
}
