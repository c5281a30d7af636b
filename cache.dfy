/** The per-input buffer cache of the calibrator across one batch: which
    input name owns which device buffer, and what each buffer holds. The
    definitions are generic in the key type `K` (input names), the buffer
    contents `V` and the error type `E` of a failed preparation. */
module BufferCache {
  import opened Wrappers

  /** The address of a device buffer. */
  type Handle = nat

  /** No two names share a buffer. */
  ghost predicate Injective<K>(buf: map<K, Handle>)
  {
    forall n, m :: n in buf && m in buf && n != m ==> buf[n] != buf[m]
  }

  /** The cache is sound: no shared buffers, every buffer allocated. */
  ghost predicate Sound<K, V>(buf: map<K, Handle>, mem: map<Handle, V>)
  {
    Injective(buf) && forall n :: n in buf ==> buf[n] in mem
  }

  /** One store into the cache: `buf'`/`mem'` is `buf`/`mem` after `t` was
      put into the buffer `h` of `name`, newly allocated if `name` had none. */
  ghost predicate Stored<K, V>(buf: map<K, Handle>, mem: map<Handle, V>, name: K, t: V, h: Handle,
                               buf': map<K, Handle>, mem': map<Handle, V>)
  {
    && name in buf' && h == buf'[name] && mem' == mem[h := t]
    && (name in buf ==> buf' == buf)
    && (name !in buf ==> buf' == buf[name := h] && h !in mem)
  }

  // ---------------------------------------------------------------------
  // What holds after the first `j` names of a batch were stored

  /** The cache holds the names it held before and the first `j` names. */
  ghost predicate CachedNames<K(!new)>(names: seq<K>, j: nat, buf0: map<K, Handle>, buf: map<K, Handle>)
    requires j <= |names|
  {
    forall n :: n in buf <==> n in buf0 || n in names[..j]
  }

  /** A cached name keeps its buffer; a newly cached name gets new memory;
      no memory is freed. */
  ghost predicate HandlesKept<K, V>(buf0: map<K, Handle>, mem0: map<Handle, V>, buf: map<K, Handle>, mem: map<Handle, V>)
  {
    && mem0.Keys <= mem.Keys
    && (forall n :: n in buf0 ==> n in buf && buf[n] == buf0[n])
    && (forall n :: n in buf && n !in buf0 ==> buf[n] !in mem0)
  }

  /** The buffer of each of the first `j` names holds that name's value. */
  ghost predicate Filled<K, V, E>(names: seq<K>, outs: seq<Result<V, E>>, j: nat, buf: map<K, Handle>, mem: map<Handle, V>)
    requires j <= |names| && j <= |outs|
  {
    forall e :: 0 <= e < j ==>
      outs[e].Success? && names[e] in buf && buf[names[e]] in mem && mem[buf[names[e]]] == outs[e].value
  }

  /** Buffers of the names not among the first `j`, and memory the cache
      did not own, are unchanged. */
  ghost predicate OthersUnchanged<K, V>(names: seq<K>, j: nat, buf0: map<K, Handle>, mem0: map<Handle, V>, mem: map<Handle, V>)
    requires j <= |names|
  {
    && (forall n :: n in buf0 && n !in names[..j] && buf0[n] in mem0 ==> buf0[n] in mem && mem[buf0[n]] == mem0[buf0[n]])
    && (forall h :: h in mem0 && h !in buf0.Values ==> h in mem && mem[h] == mem0[h])
  }

  /** The handles `ret` handed out are the buffers of the first `j` names,
      in the order of `names`. */
  ghost predicate HandedOut<K>(names: seq<K>, j: nat, buf: map<K, Handle>, ret: seq<Handle>)
    requires j <= |names|
  {
    |ret| == j && forall e :: 0 <= e < j ==> names[e] in buf && ret[e] == buf[names[e]]
  }

  /** The cache `buf`, memory `mem` and handed-out handles `ret` after the
      successful outcomes of the first `j` names were stored, starting from
      `buf0` and `mem0`. */
  ghost predicate CacheAfter<K(!new), V, E>(names: seq<K>, outs: seq<Result<V, E>>, j: nat,
                                            buf0: map<K, Handle>, mem0: map<Handle, V>,
                                            buf: map<K, Handle>, mem: map<Handle, V>, ret: seq<Handle>)
  {
    && j <= |names| && j <= |outs|
    && CachedNames(names, j, buf0, buf)
    && HandlesKept(buf0, mem0, buf, mem)
    && Filled(names, outs, j, buf, mem)
    && OthersUnchanged(names, j, buf0, mem0, mem)
    && HandedOut(names, j, buf, ret)
  }

  /** A name that occurs twice among the first `j` has the same outcome. */
  ghost predicate Consistent<K, V, E>(names: seq<K>, outs: seq<Result<V, E>>, j: nat)
    requires j <= |names| && j <= |outs|
  {
    forall e, f :: 0 <= e < j && 0 <= f < j && names[e] == names[f] ==> outs[e] == outs[f]
  }

  // ---------------------------------------------------------------------
  // One store preserves each part

  lemma CachedNamesStep<K(!new), V>(names: seq<K>, j: nat, buf0: map<K, Handle>, buf: map<K, Handle>, mem: map<Handle, V>,
                                    t: V, h: Handle, buf': map<K, Handle>, mem': map<Handle, V>)
    requires j < |names| && CachedNames(names, j, buf0, buf) && Stored(buf, mem, names[j], t, h, buf', mem')
    ensures CachedNames(names, j + 1, buf0, buf')
  {
    assert names[..j + 1] == names[..j] + [names[j]];
    forall n
      ensures n in buf' <==> n in buf0 || n in names[..j + 1]
    {
      assert n in names[..j] + [names[j]] <==> n in names[..j] || n == names[j];
    }
  }

  lemma HandlesKeptStep<K, V>(buf0: map<K, Handle>, mem0: map<Handle, V>, buf: map<K, Handle>, mem: map<Handle, V>,
                              name: K, t: V, h: Handle, buf': map<K, Handle>, mem': map<Handle, V>)
    requires HandlesKept(buf0, mem0, buf, mem) && Stored(buf, mem, name, t, h, buf', mem')
    ensures HandlesKept(buf0, mem0, buf', mem')
  {
  }

  lemma FilledStep<K, V, E>(names: seq<K>, outs: seq<Result<V, E>>, j: nat, buf: map<K, Handle>, mem: map<Handle, V>,
                            h: Handle, buf': map<K, Handle>, mem': map<Handle, V>)
    requires j < |names| && j < |outs| && outs[j].Success? && Filled(names, outs, j, buf, mem)
    requires Consistent(names, outs, j + 1)
    requires Sound(buf, mem) && Stored(buf, mem, names[j], outs[j].value, h, buf', mem')
    ensures Filled(names, outs, j + 1, buf', mem')
  {
    forall e | 0 <= e < j + 1
      ensures outs[e].Success? && names[e] in buf' && buf'[names[e]] in mem' && mem'[buf'[names[e]]] == outs[e].value
    {
      if names[e] == names[j] {
        assert buf'[names[e]] == h && outs[e] == outs[j];
      } else {
        assert buf'[names[e]] == buf[names[e]] != h;
      }
    }
  }

  lemma OthersUnchangedStep<K, V>(names: seq<K>, j: nat, buf0: map<K, Handle>, mem0: map<Handle, V>,
                                  buf: map<K, Handle>, mem: map<Handle, V>,
                                  t: V, h: Handle, buf': map<K, Handle>, mem': map<Handle, V>)
    requires j < |names| && OthersUnchanged(names, j, buf0, mem0, mem)
    requires HandlesKept(buf0, mem0, buf, mem)
    requires Sound(buf, mem) && Stored(buf, mem, names[j], t, h, buf', mem')
    ensures OthersUnchanged(names, j + 1, buf0, mem0, mem')
  {
    var name := names[j];
    assert names[..j + 1] == names[..j] + [name];
    forall n | n in buf0 && n !in names[..j + 1] && buf0[n] in mem0
      ensures buf0[n] in mem' && mem'[buf0[n]] == mem0[buf0[n]]
    {
      assert n != name && n !in names[..j];
      assert buf[n] == buf0[n];
    }
    forall h' | h' in mem0 && h' !in buf0.Values
      ensures h' in mem' && mem'[h'] == mem0[h']
    {
      if name in buf0 {
        assert h == buf0[name];
      }
    }
  }

  lemma HandedOutStep<K, V>(names: seq<K>, j: nat, buf: map<K, Handle>, mem: map<Handle, V>, ret: seq<Handle>,
                            t: V, h: Handle, buf': map<K, Handle>, mem': map<Handle, V>)
    requires j < |names| && HandedOut(names, j, buf, ret)
    requires Stored(buf, mem, names[j], t, h, buf', mem')
    ensures HandedOut(names, j + 1, buf', ret + [h])
  {
    forall e | 0 <= e < j
      ensures names[e] in buf' && buf'[names[e]] == buf[names[e]]
    {
    }
  }

  lemma SoundStep<K, V>(buf: map<K, Handle>, mem: map<Handle, V>, name: K, t: V, h: Handle,
                        buf': map<K, Handle>, mem': map<Handle, V>)
    requires Sound(buf, mem) && Stored(buf, mem, name, t, h, buf', mem')
    ensures Sound(buf', mem')
  {
    if name !in buf {
      forall n, m | n in buf' && m in buf' && n != m
        ensures buf'[n] != buf'[m]
      {
        if n != name && m != name {
          assert buf'[n] == buf[n] && buf'[m] == buf[m];
        }
      }
    }
  }

  // ---------------------------------------------------------------------
  // The cache as a state machine

  /** The buffer owned by every name, the contents of device memory, and
      the address the next allocation returns. */
  datatype Cache<K, V> = Cache(buf: map<K, Handle>, mem: map<Handle, V>, next: Handle)

  /** Every allocated address lies below the next one. */
  ghost predicate Bounded<K, V>(c: Cache<K, V>)
  {
    forall h :: h in c.mem ==> h < c.next
  }

  /** Put `t` into the buffer of `name`: allocate the next address on the
      first use of the name, overwrite the buffer afterwards. Returns the
      new state and the buffer's address. */
  function Store<K, V>(c: Cache<K, V>, name: K, t: V): (r: (Cache<K, V>, Handle))
    ensures name in r.0.buf && r.1 == r.0.buf[name] && r.0.mem == c.mem[r.1 := t]
  {
    if name in c.buf then
      (Cache(c.buf, c.mem[c.buf[name] := t], c.next), c.buf[name])
    else
      (Cache(c.buf[name := c.next], c.mem[c.next := t], c.next + 1), c.next)
  }

  /** From a sound, bounded state, `Store` allocates only fresh memory
      and keeps the state sound and bounded. */
  lemma StoreStored<K, V>(c: Cache<K, V>, name: K, t: V)
    requires Bounded(c) && Sound(c.buf, c.mem)
    ensures var r := Store(c, name, t);
      && Bounded(r.0) && Sound(r.0.buf, r.0.mem)
      && Stored(c.buf, c.mem, name, t, r.1, r.0.buf, r.0.mem)
  {
    var r := Store(c, name, t);
    SoundStep(c.buf, c.mem, name, t, r.1, r.0.buf, r.0.mem);
  }

  /** The state after storing, in order, the value of each of the first `j`
      outcomes under its name, and the addresses handed out, one per name. */
  function Run<K, V, E>(c: Cache<K, V>, names: seq<K>, outs: seq<Result<V, E>>, j: nat): (r: (Cache<K, V>, seq<Handle>))
    requires j <= |names| && j <= |outs| && forall e :: 0 <= e < j ==> outs[e].Success?
    ensures |r.1| == j
  {
    if j == 0 then (c, [])
    else
      var prev := Run(c, names, outs, j - 1);
      var next := Store(prev.0, names[j - 1], outs[j - 1].value);
      (next.0, prev.1 + [next.1])
  }

  /** A run of `j + 1` steps is a run of `j` steps followed by one `Store`
      of the next name's value. */
  lemma RunExtend<K, V, E>(c: Cache<K, V>, names: seq<K>, outs: seq<Result<V, E>>, j: nat,
                           s: Cache<K, V>, ret: seq<Handle>, s': Cache<K, V>, h: Handle)
    requires j < |names| && j < |outs| && forall e :: 0 <= e <= j ==> outs[e].Success?
    requires (s, ret) == Run(c, names, outs, j)
    requires (s', h) == Store(s, names[j], outs[j].value)
    ensures (s', ret + [h]) == Run(c, names, outs, j + 1)
  {
  }

  /** Step `j` of a run is one `Store` from a sound, bounded state. */
  lemma {:induction false} RunStep<K, V, E>(c: Cache<K, V>, names: seq<K>, outs: seq<Result<V, E>>, j: nat)
    requires j < |names| && j < |outs| && forall e :: 0 <= e <= j ==> outs[e].Success?
    requires Bounded(c) && Sound(c.buf, c.mem)
    ensures var prev, next := Run(c, names, outs, j), Run(c, names, outs, j + 1);
      && Bounded(prev.0) && Bounded(next.0)
      && Sound(prev.0.buf, prev.0.mem) && Sound(next.0.buf, next.0.mem)
      && next.1 == prev.1 + [next.1[j]]
      && Stored(prev.0.buf, prev.0.mem, names[j], outs[j].value, next.1[j], next.0.buf, next.0.mem)
    decreases j
  {
    if j > 0 {
      RunStep(c, names, outs, j - 1);
    }
    StoreStored(Run(c, names, outs, j).0, names[j], outs[j].value);
  }

  // ---------------------------------------------------------------------
  // Each part holds after a run

  lemma {:induction false} RunSound<K, V, E>(c: Cache<K, V>, names: seq<K>, outs: seq<Result<V, E>>, j: nat)
    requires j <= |names| && j <= |outs| && forall e :: 0 <= e < j ==> outs[e].Success?
    requires Bounded(c) && Sound(c.buf, c.mem)
    ensures var r := Run(c, names, outs, j); Sound(r.0.buf, r.0.mem)
    decreases j
  {
    if j > 0 {
      RunStep(c, names, outs, j - 1);
    }
  }

  lemma {:induction false} RunCachedNames<K(!new), V, E>(c: Cache<K, V>, names: seq<K>, outs: seq<Result<V, E>>, j: nat)
    requires j <= |names| && j <= |outs| && forall e :: 0 <= e < j ==> outs[e].Success?
    requires Bounded(c) && Sound(c.buf, c.mem)
    ensures var r := Run(c, names, outs, j); CachedNames(names, j, c.buf, r.0.buf)
    decreases j
  {
    if j > 0 {
      var prev, next := Run(c, names, outs, j - 1), Run(c, names, outs, j);
      var h := next.1[j - 1];
      assert Stored(prev.0.buf, prev.0.mem, names[j - 1], outs[j - 1].value, h, next.0.buf, next.0.mem) by {
        RunStep(c, names, outs, j - 1);
      }
      RunCachedNames(c, names, outs, j - 1);
      CachedNamesStep(names, j - 1, c.buf, prev.0.buf, prev.0.mem, outs[j - 1].value, h, next.0.buf, next.0.mem);
    }
  }

  lemma {:induction false} RunHandlesKept<K, V, E>(c: Cache<K, V>, names: seq<K>, outs: seq<Result<V, E>>, j: nat)
    requires j <= |names| && j <= |outs| && forall e :: 0 <= e < j ==> outs[e].Success?
    requires Bounded(c) && Sound(c.buf, c.mem)
    ensures var r := Run(c, names, outs, j); HandlesKept(c.buf, c.mem, r.0.buf, r.0.mem)
    decreases j
  {
    if j > 0 {
      var prev, next := Run(c, names, outs, j - 1), Run(c, names, outs, j);
      var h := next.1[j - 1];
      assert Stored(prev.0.buf, prev.0.mem, names[j - 1], outs[j - 1].value, h, next.0.buf, next.0.mem) by {
        RunStep(c, names, outs, j - 1);
      }
      RunHandlesKept(c, names, outs, j - 1);
      HandlesKeptStep(c.buf, c.mem, prev.0.buf, prev.0.mem, names[j - 1], outs[j - 1].value, h, next.0.buf, next.0.mem);
    }
  }

  lemma {:induction false} RunFilled<K, V, E>(c: Cache<K, V>, names: seq<K>, outs: seq<Result<V, E>>, j: nat)
    requires j <= |names| && j <= |outs| && forall e :: 0 <= e < j ==> outs[e].Success?
    requires Bounded(c) && Sound(c.buf, c.mem) && Consistent(names, outs, j)
    ensures var r := Run(c, names, outs, j); Filled(names, outs, j, r.0.buf, r.0.mem)
    decreases j
  {
    if j > 0 {
      var prev, next := Run(c, names, outs, j - 1), Run(c, names, outs, j);
      var h := next.1[j - 1];
      assert Stored(prev.0.buf, prev.0.mem, names[j - 1], outs[j - 1].value, h, next.0.buf, next.0.mem) by {
        RunStep(c, names, outs, j - 1);
      }
      assert Sound(prev.0.buf, prev.0.mem) by {
        RunSound(c, names, outs, j - 1);
      }
      RunFilled(c, names, outs, j - 1);
      FilledStep(names, outs, j - 1, prev.0.buf, prev.0.mem, h, next.0.buf, next.0.mem);
    }
  }

  lemma {:induction false} RunOthersUnchanged<K, V, E>(c: Cache<K, V>, names: seq<K>, outs: seq<Result<V, E>>, j: nat)
    requires j <= |names| && j <= |outs| && forall e :: 0 <= e < j ==> outs[e].Success?
    requires Bounded(c) && Sound(c.buf, c.mem)
    ensures var r := Run(c, names, outs, j); OthersUnchanged(names, j, c.buf, c.mem, r.0.mem)
    decreases j
  {
    if j > 0 {
      var prev, next := Run(c, names, outs, j - 1), Run(c, names, outs, j);
      var h := next.1[j - 1];
      assert Stored(prev.0.buf, prev.0.mem, names[j - 1], outs[j - 1].value, h, next.0.buf, next.0.mem) by {
        RunStep(c, names, outs, j - 1);
      }
      assert HandlesKept(c.buf, c.mem, prev.0.buf, prev.0.mem) by {
        RunHandlesKept(c, names, outs, j - 1);
      }
      assert Sound(prev.0.buf, prev.0.mem) by {
        RunSound(c, names, outs, j - 1);
      }
      RunOthersUnchanged(c, names, outs, j - 1);
      OthersUnchangedStep(names, j - 1, c.buf, c.mem, prev.0.buf, prev.0.mem,
                          outs[j - 1].value, next.1[j - 1], next.0.buf, next.0.mem);
    }
  }

  lemma {:induction false} RunHandedOut<K, V, E>(c: Cache<K, V>, names: seq<K>, outs: seq<Result<V, E>>, j: nat)
    requires j <= |names| && j <= |outs| && forall e :: 0 <= e < j ==> outs[e].Success?
    requires Bounded(c) && Sound(c.buf, c.mem)
    ensures var r := Run(c, names, outs, j); HandedOut(names, j, r.0.buf, r.1)
    decreases j
  {
    if j > 0 {
      var prev, next := Run(c, names, outs, j - 1), Run(c, names, outs, j);
      var h := next.1[j - 1];
      assert next.1 == prev.1 + [h] && Stored(prev.0.buf, prev.0.mem, names[j - 1], outs[j - 1].value, h, next.0.buf, next.0.mem) by {
        RunStep(c, names, outs, j - 1);
      }
      RunHandedOut(c, names, outs, j - 1);
      HandedOutStep(names, j - 1, prev.0.buf, prev.0.mem, prev.1, outs[j - 1].value, h, next.0.buf, next.0.mem);
    }
  }

  /** A run over the first `j` names keeps the cache sound and leaves it
      as `CacheAfter` describes. */
  lemma RunCacheAfter<K(!new), V, E>(c: Cache<K, V>, names: seq<K>, outs: seq<Result<V, E>>, j: nat)
    requires j <= |names| && j <= |outs| && forall e :: 0 <= e < j ==> outs[e].Success?
    requires Bounded(c) && Sound(c.buf, c.mem) && Consistent(names, outs, j)
    ensures var r := Run(c, names, outs, j);
      && Sound(r.0.buf, r.0.mem)
      && CacheAfter(names, outs, j, c.buf, c.mem, r.0.buf, r.0.mem, r.1)
  {
    RunSound(c, names, outs, j);
    RunCachedNames(c, names, outs, j);
    RunHandlesKept(c, names, outs, j);
    RunFilled(c, names, outs, j);
    RunOthersUnchanged(c, names, outs, j);
    RunHandedOut(c, names, outs, j);
  }

  /** Address stability: a name that already had a buffer is handed that
      same buffer again; a name seen for the first time is handed memory
      that was not allocated before, and no two names of the batch that
      differ share a handle. */
  lemma HandlesOfBatch<K(!new), V, E>(names: seq<K>, outs: seq<Result<V, E>>, j: nat,
                                      buf0: map<K, Handle>, mem0: map<Handle, V>,
                                      buf: map<K, Handle>, mem: map<Handle, V>, ret: seq<Handle>)
    requires CacheAfter(names, outs, j, buf0, mem0, buf, mem, ret) && Injective(buf)
    ensures forall e :: 0 <= e < j && names[e] in buf0 ==> ret[e] == buf0[names[e]]
    ensures forall e :: 0 <= e < j && names[e] !in buf0 ==> ret[e] !in mem0
    ensures forall e, f :: 0 <= e < j && 0 <= f < j && names[e] != names[f] ==> ret[e] != ret[f]
  {
  }
}
