/**
 * The client's event emitter (the screen-shake and battle channels): a set of listeners kept in
 * insertion order, a subscribe that returns an unsubscribe handle, and an emit that calls every
 * listener once. A listener is identified by a number (JavaScript compares functions by
 * identity); what its code does is outside the model, so each call is recorded in a log.
 */
module Events {

  type Listener = nat

  predicate NoDups<T(==)>(s: seq<T>) {
    forall i, j :: 0 <= i < j < |s| ==> s[i] != s[j]
  }

  /** `Set.add`: a new listener goes to the end; one already present stays where it is. */
  function Added(s: seq<Listener>, l: Listener): (r: seq<Listener>)
    ensures NoDups(s) ==> NoDups(r)
    ensures forall x :: x in r <==> x in s || x == l
  {
    if l in s then s else s + [l]
  }

  /** `Set.delete`: the listener goes, every other one stays in its order. */
  function Removed(s: seq<Listener>, l: Listener): (r: seq<Listener>)
    ensures |r| <= |s|
    ensures forall x :: x in r <==> x in s && x != l
    ensures l !in s ==> r == s
    decreases |s|
  {
    if s == [] then []
    else if s[0] == l then Removed(s[1..], l)
    else [s[0]] + Removed(s[1..], l)
  }

  /** Removing keeps a listener list free of duplicates. */
  lemma {:induction false} RemovedNoDups(s: seq<Listener>, l: Listener)
    requires NoDups(s)
    ensures NoDups(Removed(s, l))
    decreases |s|
  {
    if s != [] {
      assert NoDups(s[1..]) by {
        forall i, j | 0 <= i < j < |s[1..]| ensures s[1..][i] != s[1..][j] {
          assert s[1..][i] == s[i + 1] && s[1..][j] == s[j + 1];
        }
      }
      RemovedNoDups(s[1..], l);
      if s[0] != l {
        var r := Removed(s[1..], l);
        assert s[0] !in s[1..];
        assert s[0] !in r;
        assert forall i :: 0 < i < |[s[0]] + r| ==> ([s[0]] + r)[i] == r[i - 1];
      }
    }
  }

  /** Subscribing a listener twice stores it once. */
  lemma AddedTwice(s: seq<Listener>, l: Listener)
    ensures Added(Added(s, l), l) == Added(s, l)
  {
  }

  /** Unsubscribing right after a first subscription restores the listener list. */
  lemma {:induction false} RemovedUndoesAdded(s: seq<Listener>, l: Listener)
    requires l !in s
    ensures Removed(Added(s, l), l) == s
    decreases |s|
  {
    if s == [] {
      assert Added(s, l) == [l];
      assert Removed([l], l) == Removed([], l);
    } else {
      assert Added(s, l) == [s[0]] + Added(s[1..], l);
      assert Added(s, l)[1..] == Added(s[1..], l);
      RemovedUndoesAdded(s[1..], l);
    }
  }

  /** The calls one `emit(payload)` makes: each listener in order, with the payload. */
  function Calls<T>(s: seq<Listener>, payload: T): (r: seq<(Listener, T)>)
    ensures |r| == |s|
    ensures forall i :: 0 <= i < |r| ==> r[i] == (s[i], payload)
  {
    seq(|s|, i requires 0 <= i < |s| => (s[i], payload))
  }

  class EventEmitter<T> {
    var listeners: seq<Listener>
    /** Every listener call made so far, with its payload. */
    var log: seq<(Listener, T)>

    predicate Valid()
      reads this
    {
      NoDups(listeners)
    }

    constructor ()
      ensures Valid() && listeners == [] && log == []
    {
      listeners, log := [], [];
    }

    /** `subscribe`: adds the listener; the handle it returns is `Unsubscribe` of the same listener. */
    method Subscribe(l: Listener)
      requires Valid()
      modifies this`listeners
      ensures Valid() && listeners == Added(old(listeners), l)
    {
      if l !in listeners {
        listeners := listeners + [l];
      }
    }

    /** The closure `subscribe` returns: deletes that one listener. */
    method Unsubscribe(l: Listener)
      requires Valid()
      modifies this`listeners
      ensures Valid() && listeners == Removed(old(listeners), l)
    {
      var current, kept := listeners, [];
      for i := 0 to |current|
        invariant kept == Removed(current[..i], l)
      {
        RemovedSnoc(current[..i], current[i], l);
        assert current[..i + 1] == current[..i] + [current[i]];
        if current[i] != l {
          kept := kept + [current[i]];
        }
      }
      assert current[..|current|] == current;
      RemovedNoDups(current, l);
      listeners := kept;
    }

    /** `emit`: every current listener is called once with the payload, in subscription order. */
    method Emit(payload: T)
      modifies this`log
      ensures log == old(log) + Calls(listeners, payload)
    {
      var current := listeners;
      for i := 0 to |current|
        invariant log == old(log) + Calls(current[..i], payload)
      {
        assert Calls(current[..i + 1], payload) == Calls(current[..i], payload) + [(current[i], payload)];
        log := log + [(current[i], payload)];
      }
      assert current[..|current|] == current;
    }
  }

  /** Removing from a list with one more element at the end. */
  lemma {:induction false} RemovedSnoc(s: seq<Listener>, x: Listener, l: Listener)
    ensures Removed(s + [x], l) == Removed(s, l) + (if x == l then [] else [x])
    decreases |s|
  {
    if s == [] {
      assert [] + [x] == [x];
      assert [x][1..] == [];
    } else {
      assert (s + [x])[0] == s[0] && (s + [x])[1..] == s[1..] + [x];
      RemovedSnoc(s[1..], x, l);
    }
  }
}
