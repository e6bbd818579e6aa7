/** The generic gesture collector: which windows get recognizers, the
    recognizers each window holds, and the set registered with the window
    event dispatcher under the reserved key -1. */
module Gestures {
  import opened Common
  import opened WindowEvents

  /** The key under which the dispatcher's recognizers are kept. */
  const DispatcherKey: int := -1

  const TextEffectsPrefix: string := "<UITextEffectsWindow"
  const RemoteKeyboardPrefix: string := "<UIRemoteKeyboardWindow"

  /** `s.starts(with: prefix)`. */
  function StartsWith(s: string, prefix: string): (r: bool)
    ensures r <==> prefix <= s
  {
    if prefix == [] then true
    else if s == [] then false
    else s[0] == prefix[0] && StartsWith(s[1..], prefix[1..])
  }

  /** `filteredForPrivacy`: the system's text-effects and remote-keyboard
      windows, known by their descriptions, get no recognizers. */
  function FilteredForPrivacy(description: string): bool
  {
    StartsWith(description, TextEffectsPrefix) || StartsWith(description, RemoteKeyboardPrefix)
  }

  /** A window is filtered exactly when its description begins with one of
      the two prefixes. */
  lemma FilteredForPrivacyPrefixes(description: string)
    ensures FilteredForPrivacy(description) <==>
      TextEffectsPrefix <= description || RemoteKeyboardPrefix <= description
    ensures FilteredForPrivacy(TextEffectsPrefix + description)
    ensures FilteredForPrivacy(RemoteKeyboardPrefix + description)
  {
    assert TextEffectsPrefix <= TextEffectsPrefix + description;
    assert RemoteKeyboardPrefix <= RemoteKeyboardPrefix + description;
  }

  /** An ordinary window's description is not filtered. */
  lemma KeyWindowNotFiltered()
    ensures !FilteredForPrivacy("<UIWindow: 0x7f>")
  {
    assert "<UIWindow: 0x7f>"[3] != TextEffectsPrefix[3];
    assert "<UIWindow: 0x7f>"[3] != RemoteKeyboardPrefix[3];
  }

  // ---------------------------------------------------------------------
  // Adding and removing several recognizers in turn

  /** `xs.forEach { list.add($0) }`. */
  function AddedAll<T(==)>(s: seq<T>, xs: seq<T>): seq<T>
  {
    if xs == [] then s else Added(AddedAll(s, xs[..|xs| - 1]), xs[|xs| - 1])
  }

  /** `xs.forEach { list.remove($0) }`. */
  function RemovedAll<T(==)>(s: seq<T>, xs: seq<T>): seq<T>
  {
    if xs == [] then s else Removed(RemovedAll(s, xs[..|xs| - 1]), xs[|xs| - 1])
  }

  /** Recognizers no list holds yet are appended in order. */
  lemma {:induction false} AddedAllFresh<T>(s: seq<T>, xs: seq<T>)
    requires NoDuplicates(xs) && forall i :: 0 <= i < |xs| ==> xs[i] !in s
    ensures AddedAll(s, xs) == s + xs
  {
    if xs != [] {
      var init, last := xs[..|xs| - 1], xs[|xs| - 1];
      AddedAllFresh(s, init);
      assert last !in init by {
        forall i | 0 <= i < |init| ensures init[i] != last {
          assert init[i] == xs[i];
        }
      }
      assert xs == init + [last];
    }
  }

  /** Removing one recognizer that sits between two lists not holding it. */
  lemma RemovedMiddle<T>(s: seq<T>, x: T, u: seq<T>)
    requires x !in s
    ensures Removed(s + [x] + u, x) == s + u
  {
    var t := s + [x] + u;
    assert forall j :: 0 <= j < |s| ==> t[j] == s[j];
    assert t[|s|] == x;
    assert FirstIndex(t, x) == Some(|s|);
    assert t[..|s|] == s && t[|s| + 1..] == u;
  }

  /** Removing the recognizers again takes out exactly what adding them put
      in. */
  lemma {:induction false} RemovedAllAdded<T>(s: seq<T>, xs: seq<T>, u: seq<T>)
    requires NoDuplicates(xs) && forall i :: 0 <= i < |xs| ==> xs[i] !in s
    ensures RemovedAll(s + xs + u, xs) == s + u
  {
    if xs != [] {
      var init, last := xs[..|xs| - 1], xs[|xs| - 1];
      assert s + xs + u == s + init + ([last] + u);
      RemovedAllAdded(s, init, [last] + u);
      assert s + ([last] + u) == s + [last] + u;
      RemovedMiddle(s, last, u);
    }
  }

  /** Adding fresh recognizers and removing them again restores the list. */
  lemma AddThenRemoveAll<T>(s: seq<T>, xs: seq<T>)
    requires NoDuplicates(xs) && forall i :: 0 <= i < |xs| ==> xs[i] !in s
    ensures RemovedAll(AddedAll(s, xs), xs) == s
  {
    AddedAllFresh(s, xs);
    RemovedAllAdded(s, xs, []);
    assert s + xs + [] == s + xs && s + [] == s;
  }

  // ---------------------------------------------------------------------
  // Windows and the collector

  /** A window: its hash, its description, and the recognizers attached to
      it (a view holds each recognizer once). */
  class Window {
    const hash: int
    const description: string
    var attached: seq<RecognizerId>

    constructor (hash: int, description: string)
      ensures this.hash == hash && this.description == description && attached == []
    {
      this.hash := hash;
      this.description := description;
      attached := [];
    }

    method AddGestureRecognizer(x: RecognizerId)
      modifies this
      ensures attached == Added(old(attached), x)
    {
      attached := Added(attached, x);
    }

    method RemoveGestureRecognizer(x: RecognizerId)
      modifies this
      ensures attached == Removed(old(attached), x)
    {
      attached := Removed(attached, x);
    }
  }

  /** `TrapConfig.DataCollection`, as far as the collector reads it. */
  datatype DataCollection = DataCollection(useGestureRecognizer: bool)

  /** The recognizers one call of `createRecongizers` makes: `kinds` new
      instances, numbered from `next`. */
  function NewRecognizers(next: nat, kinds: nat): (r: seq<RecognizerId>)
    ensures |r| == kinds && NoDuplicates(r)
    ensures forall i :: 0 <= i < |r| ==> next <= r[i] < next + kinds
  {
    seq(kinds, i requires 0 <= i < kinds => next + i)
  }

  class TrapGestureCollector {
    /** How many recognizers `createRecongizers` returns: none for the base
        collector, one or more for a subclass. */
    const kinds: nat
    /** The recognizer instances made so far; every new one is fresh. */
    var minted: nat
    var recognizers: map<int, seq<RecognizerId>>
    var config: Option<DataCollection>

    /** Every recognizer held was made by this collector. */
    ghost predicate Valid()
      reads this
    {
      forall k, i :: k in recognizers && 0 <= i < |recognizers[k]| ==> recognizers[k][i] < minted
    }

    constructor (kinds: nat)
      ensures Valid() && this.kinds == kinds && recognizers == map[] && config == None && minted == 0
    {
      this.kinds := kinds;
      minted := 0;
      recognizers := map[];
      config := None;
    }

    /** `createRecongizers`: new instances on every call. */
    method CreateRecognizers() returns (created: seq<RecognizerId>)
      modifies this
      ensures created == NewRecognizers(old(minted), kinds)
      ensures minted == old(minted) + kinds
      ensures recognizers == old(recognizers) && config == old(config)
    {
      created := NewRecognizers(minted, kinds);
      minted := minted + kinds;
    }

    /** `addRecognizers(to:)`: a window that is neither filtered nor
        already known gets new recognizers, recorded under its hash and
        attached to it one by one. */
    method AddRecognizers(window: Window)
      requires Valid()
      modifies this, window
      ensures Valid() && config == old(config)
      ensures FilteredForPrivacy(window.description) || window.hash in old(recognizers) ==>
        recognizers == old(recognizers) && window.attached == old(window.attached) && minted == old(minted)
      ensures !FilteredForPrivacy(window.description) && window.hash !in old(recognizers) ==>
        var created := NewRecognizers(old(minted), kinds);
        && recognizers == old(recognizers)[window.hash := created]
        && window.attached == AddedAll(old(window.attached), created)
    {
      if FilteredForPrivacy(window.description) {
        return;
      }
      if window.hash in recognizers {
        return;
      }
      var created := CreateRecognizers();
      recognizers := recognizers[window.hash := created];
      var i := 0;
      while i < |created|
        invariant 0 <= i <= |created|
        invariant window.attached == AddedAll(old(window.attached), created[..i])
        invariant recognizers == old(recognizers)[window.hash := created] && minted == old(minted) + kinds
        invariant config == old(config)
      {
        assert created[..i + 1][..i] == created[..i];
        window.AddGestureRecognizer(created[i]);
        i := i + 1;
      }
      assert created[..i] == created;
    }

    /** `removeRecognizers(from:)`: a known window's recognizers are
        detached one by one and its key alone is deleted. */
    method RemoveRecognizers(window: Window)
      requires Valid()
      modifies this, window
      ensures Valid() && minted == old(minted) && config == old(config)
      ensures window.hash !in old(recognizers) ==>
        recognizers == old(recognizers) && window.attached == old(window.attached)
      ensures window.hash in old(recognizers) ==>
        && recognizers == old(recognizers) - {window.hash}
        && window.attached == RemovedAll(old(window.attached), old(recognizers)[window.hash])
    {
      if window.hash !in recognizers {
        return;
      }
      var held := recognizers[window.hash];
      var i := 0;
      while i < |held|
        invariant 0 <= i <= |held|
        invariant window.attached == RemovedAll(old(window.attached), held[..i])
        invariant unchanged(this)
      {
        assert held[..i + 1][..i] == held[..i];
        window.RemoveGestureRecognizer(held[i]);
        i := i + 1;
      }
      assert held[..i] == held;
      recognizers := recognizers - {window.hash};
    }

    /** `addRecognizersToDispatcher`: new recognizers under key -1, each
        registered with the dispatcher. */
    method AddRecognizersToDispatcher(dispatcher: TrapWindowEventDispatcher)
      requires Valid() && dispatcher.Valid()
      modifies this, dispatcher
      ensures Valid() && dispatcher.Valid() && config == old(config)
      ensures var created := NewRecognizers(old(minted), kinds);
        && recognizers == old(recognizers)[DispatcherKey := created]
        && dispatcher.recognizers == AddedAll(old(dispatcher.recognizers), created)
    {
      var created := CreateRecognizers();
      recognizers := recognizers[DispatcherKey := created];
      var i := 0;
      while i < |created|
        invariant 0 <= i <= |created|
        invariant dispatcher.Valid()
        invariant dispatcher.recognizers == AddedAll(old(dispatcher.recognizers), created[..i])
        invariant recognizers == old(recognizers)[DispatcherKey := created] && minted == old(minted) + kinds
        invariant config == old(config)
      {
        assert created[..i + 1][..i] == created[..i];
        dispatcher.AddGestureRecognizer(created[i]);
        i := i + 1;
      }
      assert created[..i] == created;
    }

    /** `removeRecognizersFromDispatcher`: the recognizers under key -1
        are unregistered and the key is deleted. */
    method RemoveRecognizersFromDispatcher(dispatcher: TrapWindowEventDispatcher)
      requires Valid() && dispatcher.Valid()
      modifies this, dispatcher
      ensures Valid() && dispatcher.Valid() && minted == old(minted) && config == old(config)
      ensures DispatcherKey !in old(recognizers) ==>
        recognizers == old(recognizers) && dispatcher.recognizers == old(dispatcher.recognizers)
      ensures DispatcherKey in old(recognizers) ==>
        && recognizers == old(recognizers) - {DispatcherKey}
        && dispatcher.recognizers == RemovedAll(old(dispatcher.recognizers), old(recognizers)[DispatcherKey])
    {
      if DispatcherKey !in recognizers {
        return;
      }
      var held := recognizers[DispatcherKey];
      var i := 0;
      while i < |held|
        invariant 0 <= i <= |held|
        invariant dispatcher.Valid()
        invariant dispatcher.recognizers == RemovedAll(old(dispatcher.recognizers), held[..i])
        invariant unchanged(this)
      {
        assert held[..i + 1][..i] == held[..i];
        dispatcher.RemoveGestureRecognizer(held[i]);
        i := i + 1;
      }
      assert held[..i] == held;
      recognizers := recognizers - {DispatcherKey};
    }

    /** `start(withConfig:)`: the configuration is kept and the
        dispatcher's recognizers are created and registered. */
    method Start(config: DataCollection, dispatcher: TrapWindowEventDispatcher)
      requires Valid() && dispatcher.Valid()
      modifies this, dispatcher
      ensures Valid() && dispatcher.Valid() && this.config == Some(config)
      ensures var created := NewRecognizers(old(minted), kinds);
        && recognizers == old(recognizers)[DispatcherKey := created]
        && dispatcher.recognizers == AddedAll(old(dispatcher.recognizers), created)
    {
      this.config := Some(config);
      AddRecognizersToDispatcher(dispatcher);
    }

    /** `stop()`: the dispatcher's recognizers are unregistered. */
    method Stop(dispatcher: TrapWindowEventDispatcher)
      requires Valid() && dispatcher.Valid()
      modifies this, dispatcher
      ensures Valid() && dispatcher.Valid() && minted == old(minted) && config == old(config)
      ensures DispatcherKey !in old(recognizers) ==>
        recognizers == old(recognizers) && dispatcher.recognizers == old(dispatcher.recognizers)
      ensures DispatcherKey in old(recognizers) ==>
        && recognizers == old(recognizers) - {DispatcherKey}
        && dispatcher.recognizers == RemovedAll(old(dispatcher.recognizers), old(recognizers)[DispatcherKey])
    {
      RemoveRecognizersFromDispatcher(dispatcher);
    }
  }

  // ---------------------------------------------------------------------
  // Scenarios

  /** Starting and then stopping a collector leaves the dispatcher as it
      found it and no key -1 behind; the base collector registers nothing. */
  method StartThenStop(kinds: nat, config: DataCollection)
    returns (registered: seq<RecognizerId>, after: seq<RecognizerId>, keys: set<int>)
    ensures registered == NewRecognizers(0, kinds)
    ensures kinds == 0 ==> registered == []
    ensures after == []
    ensures keys == {}
  {
    var dispatcher := new TrapWindowEventDispatcher();
    var collector := new TrapGestureCollector(kinds);
    var created := NewRecognizers(0, kinds);
    collector.Start(config, dispatcher);
    AddedAllFresh([], created);
    registered := dispatcher.recognizers;
    collector.Stop(dispatcher);
    AddThenRemoveAll([], created);
    after := dispatcher.recognizers;
    keys := collector.recognizers.Keys;
  }

  /** A window gets its recognizers once: adding again changes nothing,
      and removing detaches them all and forgets the window. */
  method AddTwiceThenRemove(kinds: nat, hash: int)
    returns (first: seq<RecognizerId>, second: seq<RecognizerId>, last: seq<RecognizerId>, known: bool)
    ensures first == NewRecognizers(0, kinds) && second == first
    ensures last == [] && !known
  {
    var window := new Window(hash, "<UIWindow: 0x7f>");
    var collector := new TrapGestureCollector(kinds);
    KeyWindowNotFiltered();
    collector.AddRecognizers(window);
    AddedAllFresh([], NewRecognizers(0, kinds));
    first := window.attached;
    collector.AddRecognizers(window);
    second := window.attached;
    collector.RemoveRecognizers(window);
    AddThenRemoveAll([], NewRecognizers(0, kinds));
    last := window.attached;
    known := hash in collector.recognizers;
  }

  /** The keyboard window never gets recognizers. */
  method KeyboardWindowIgnored(kinds: nat, hash: int) returns (attached: seq<RecognizerId>, known: bool)
    ensures attached == [] && !known
  {
    var window := new Window(hash, RemoteKeyboardPrefix + " frame = (0 0; 390 844)>");
    var collector := new TrapGestureCollector(kinds);
    FilteredForPrivacyPrefixes(" frame = (0 0; 390 844)>");
    collector.AddRecognizers(window);
    attached := window.attached;
    known := hash in collector.recognizers;
  }
}
