/**
 * Properties of the serializer registry over arbitrary sequences of setter
 * calls: last write wins per slot, slots are independent (header entries by
 * name), typed getters return what was registered, unknown header names fail,
 * and the type-erasure invariant is kept.
 */
module RegistryProperties {
  import opened Wrappers
  import opened Registry

  /** The registry is nothing but its slots: two registries that read alike are equal. */
  lemma ReadDeterminesRegistry(r1: Registry, r2: Registry)
    requires forall s :: Read(r1, s) == Read(r2, s)
    ensures r1 == r2
  {
    assert Read(r1, DeliveryReport) == Read(r2, DeliveryReport);
    assert Read(r1, Partitioner) == Read(r2, Partitioner);
    assert Read(r1, QueueFull) == Read(r2, QueueFull);
    assert Read(r1, Key) == Read(r2, Key);
    assert Read(r1, Payload) == Read(r2, Payload);
    forall name | true
      ensures (name in r1.headerSerializers <==> name in r2.headerSerializers)
      ensures name in r1.headerSerializers ==> r1.headerSerializers[name] == r2.headerSerializers[name]
    {
      assert Read(r1, Header(name)) == Read(r2, Header(name));
    }
    assert r1.headerSerializers == r2.headerSerializers;
  }

  /** A second call to the same slot discards the first: `reset` keeps no trace of the old handle. */
  lemma OverwriteDiscards(r: Registry, c1: Call, c2: Call)
    requires Compiles(c1) && Compiles(c2) && Target(c1) == Target(c2)
    ensures Apply(Apply(r, c1), c2) == Apply(r, c2)
  {
    forall s ensures Read(Apply(Apply(r, c1), c2), s) == Read(Apply(r, c2), s) {
      if s != Target(c2) {
        assert Read(Apply(Apply(r, c1), c2), s) == Read(Apply(r, c1), s);
      }
    }
    ReadDeterminesRegistry(Apply(Apply(r, c1), c2), Apply(r, c2));
  }

  /** Calls to different slots (different header names included) commute. */
  lemma DistinctSlotsCommute(r: Registry, c1: Call, c2: Call)
    requires Compiles(c1) && Compiles(c2) && Target(c1) != Target(c2)
    ensures Apply(Apply(r, c1), c2) == Apply(Apply(r, c2), c1)
  {
    forall s ensures Read(Apply(Apply(r, c1), c2), s) == Read(Apply(Apply(r, c2), c1), s) {
      if s == Target(c1) {
        assert Read(Apply(Apply(r, c1), c2), s) == Read(Apply(r, c1), s);
      } else if s == Target(c2) {
        assert Read(Apply(Apply(r, c2), c1), s) == Read(Apply(r, c2), s);
      } else {
        assert Read(Apply(Apply(r, c1), c2), s) == Read(Apply(r, c1), s);
        assert Read(Apply(Apply(r, c2), c1), s) == Read(Apply(r, c2), s);
      }
    }
    ReadDeterminesRegistry(Apply(Apply(r, c1), c2), Apply(Apply(r, c2), c1));
  }

  /**
   * Passing an empty `std::function` to a lifecycle setter of a fresh
   * configuration leaves it as it was: the empty function is the default.
   */
  lemma EmptyLifecycleIsDefault(c: Call)
    requires c.SetDeliveryReport? || c.SetPartitioner? || c.SetQueueFull?
    requires c.lifecycle == None
    ensures Apply(Empty(), c) == Empty()
  {
  }

  /**
   * Registering a header name adds an entry only when the name is new: the
   * map holds at most one handle per name.
   */
  lemma HeaderCountOnSet(r: Registry, name: string, f: Callable)
    requires 1 <= |f.params|
    ensures |Apply(r, SetHeader(name, f)).headerSerializers| ==
            |r.headerSerializers| + (if name in r.headerSerializers then 0 else 1)
  {
    var m := r.headerSerializers;
    var m' := Apply(r, SetHeader(name, f)).headerSerializers;
    assert m'.Keys == m.Keys + {name};
    if name !in m {
      assert |m.Keys + {name}| == |m.Keys| + 1;
    } else {
      assert m.Keys + {name} == m.Keys;
    }
  }

  // ---------------------------------------------------------------------------
  // Sequences of setter calls
  // ---------------------------------------------------------------------------

  /** A slot that no call in the sequence writes reads as it did before. */
  lemma {:induction false} ReplayUntouched(r: Registry, cs: seq<Call>, s: Slot)
    requires AllCompile(cs)
    requires forall j :: 0 <= j < |cs| ==> Target(cs[j]) != s
    ensures Read(Replay(r, cs), s) == Read(r, s)
    decreases |cs|
  {
    if cs != [] {
      ReplayUntouched(r, cs[..|cs| - 1], s);
    }
  }

  /** Last write wins: the slot written by `cs[i]`, and by no later call, holds what `cs[i]` wrote. */
  lemma {:induction false} ReplayLastWriteWins(r: Registry, cs: seq<Call>, i: nat)
    requires AllCompile(cs)
    requires i < |cs|
    requires forall j :: i < j < |cs| ==> Target(cs[j]) != Target(cs[i])
    ensures Read(Replay(r, cs), Target(cs[i])) == Some(Written(cs[i]))
    decreases |cs|
  {
    if i < |cs| - 1 {
      var prefix := cs[..|cs| - 1];
      assert prefix[i] == cs[i];
      ReplayLastWriteWins(r, prefix, i);
    }
  }

  /** The header names a sequence of calls registers. */
  ghost function RegisteredNames(cs: seq<Call>): set<string>
  {
    set j | 0 <= j < |cs| && cs[j].SetHeader? :: cs[j].name
  }

  /** The header map's names are the initial ones plus every name some call registered. */
  lemma {:induction false} ReplayHeaderNames(r: Registry, cs: seq<Call>)
    requires AllCompile(cs)
    ensures Replay(r, cs).headerSerializers.Keys == r.headerSerializers.Keys + RegisteredNames(cs)
    decreases |cs|
  {
    if cs != [] {
      var prefix, last := cs[..|cs| - 1], cs[|cs| - 1];
      ReplayHeaderNames(r, prefix);
      assert RegisteredNames(cs) ==
             RegisteredNames(prefix) + (if last.SetHeader? then {last.name} else {}) by {
        forall n | n in RegisteredNames(cs)
          ensures n in RegisteredNames(prefix) + (if last.SetHeader? then {last.name} else {})
        {
          var j :| 0 <= j < |cs| && cs[j].SetHeader? && cs[j].name == n;
          if j < |cs| - 1 { assert prefix[j] == cs[j]; }
        }
        forall n | n in RegisteredNames(prefix)
          ensures n in RegisteredNames(cs)
        {
          var j :| 0 <= j < |prefix| && prefix[j].SetHeader? && prefix[j].name == n;
          assert cs[j] == prefix[j];
        }
        if last.SetHeader? {
          assert cs[|cs| - 1] == last;
        }
      }
    }
  }

  /** Apply keeps the type-erasure invariant. */
  lemma ApplyWellFormed(r: Registry, c: Call)
    requires Compiles(c)
    ensures WellFormed(r) ==> WellFormed(Apply(r, c))
  {
    var r' := Apply(r, c);
    if WellFormed(r) {
      forall name | name in r'.headerSerializers
        ensures HeaderHandleWellFormed(r'.headerSerializers[name])
      {
        if !(c.SetHeader? && c.name == name) {
          assert Read(r', Header(name)) == Read(r, Header(name));
        }
      }
    }
  }

  /** Every sequence of setter calls keeps the type-erasure invariant. */
  lemma {:induction false} ReplayWellFormed(r: Registry, cs: seq<Call>)
    requires AllCompile(cs) && WellFormed(r)
    ensures WellFormed(Replay(r, cs))
    decreases |cs|
  {
    if cs != [] {
      ReplayWellFormed(r, cs[..|cs| - 1]);
      ApplyWellFormed(Replay(r, cs[..|cs| - 1]), cs[|cs| - 1]);
    }
  }

  // ---------------------------------------------------------------------------
  // Round trips and the missing-name error
  // ---------------------------------------------------------------------------

  /**
   * After a history whose last key write is `SetKey(f)`, `getKeyCallback<T>()`
   * with T the type of f's first parameter returns f.
   */
  lemma KeyRoundTrip(r: Registry, cs: seq<Call>, i: nat)
    requires AllCompile(cs)
    requires i < |cs| && cs[i].SetKey?
    requires forall j :: i < j < |cs| ==> !cs[j].SetKey?
    ensures Replay(r, cs).keySerializer.Some?
    ensures Replay(r, cs).keySerializer.value.tag == ArgType(cs[i].callback, 0)
    ensures KeyCallback(Replay(r, cs), ArgType(cs[i].callback, 0)) == cs[i].callback
  {
    ReplayLastWriteWins(r, cs, i);
  }

  /**
   * After a history whose last payload write is `SetPayload(f)`,
   * `getPayloadCallback<T>()` with T the type of f's second parameter returns f.
   */
  lemma PayloadRoundTrip(r: Registry, cs: seq<Call>, i: nat)
    requires AllCompile(cs)
    requires i < |cs| && cs[i].SetPayload?
    requires forall j :: i < j < |cs| ==> !cs[j].SetPayload?
    ensures Replay(r, cs).payloadSerializer.Some?
    ensures Replay(r, cs).payloadSerializer.value.tag == ArgType(cs[i].callback, 1)
    ensures PayloadCallback(Replay(r, cs), ArgType(cs[i].callback, 1)) == cs[i].callback
  {
    ReplayLastWriteWins(r, cs, i);
  }

  /**
   * After a history whose last write of header `name` is `SetHeader(name, f)`,
   * `getHeaderCallback<T>(name)` with T the type of f's first parameter
   * returns f; writes of other names in between do not matter.
   */
  lemma HeaderRoundTrip(r: Registry, cs: seq<Call>, i: nat)
    requires AllCompile(cs)
    requires i < |cs| && cs[i].SetHeader?
    requires forall j :: i < j < |cs| ==> !(cs[j].SetHeader? && cs[j].name == cs[i].name)
    ensures cs[i].name in Replay(r, cs).headerSerializers
    ensures Replay(r, cs).headerSerializers[cs[i].name].tag == ArgType(cs[i].callback, 0)
    ensures HeaderCallback(Replay(r, cs), cs[i].name, ArgType(cs[i].callback, 0)) == Success(cs[i].callback)
  {
    ReplayLastWriteWins(r, cs, i);
  }

  /**
   * Starting from an empty configuration, `getHeaderCallback<T>(name)` throws
   * "Invalid header name", for every T, exactly when no call registered `name`.
   */
  lemma MissingHeaderFails(cs: seq<Call>, name: string, t: TypeTag)
    requires AllCompile(cs)
    ensures name in Replay(Empty(), cs).headerSerializers <==> name in RegisteredNames(cs)
    ensures name !in RegisteredNames(cs) ==> HeaderCallback(Replay(Empty(), cs), name, t) == Failure(InvalidHeaderName)
  {
    ReplayHeaderNames(Empty(), cs);
  }
}
