/**
 `write_atomic` and `write_private_key` (crates/core/src/pemfile.rs) as the code that runs: system calls that
 change a file system in place, any of which may fail, and a `write_all` that writes in pieces. Each is proved
 from any file system whatever, stale scratch files and planted links included.
 */
module Pemfile {
  import opened Prelude
  import opened AtomicFile

  datatype Failure = AlreadyExists | IsADirectory | Io

  const OWNER_ONLY: nat := 0x180

  /** Everything but inode `i` and the entries of `names` is the same. */
  ghost predicate OnlyChanged(fs: Fs, fs': Fs, names: set<Name>, i: Inode) {
    && (forall n :: n !in names ==> Lookup(fs'.dir, n) == Lookup(fs.dir, n))
    && (forall j :: j != i ==> SameInode(fs, fs', j))
    && fs'.durable == fs.durable
  }

  lemma ChangesCompose(fs: Fs, fs': Fs, fs'': Fs, names: set<Name>, names': set<Name>, i: Inode)
    requires OnlyChanged(fs, fs', names, i) && OnlyChanged(fs', fs'', names', i) && names' <= names
    ensures OnlyChanged(fs, fs'', names, i)
  {
    forall j | j != i ensures SameInode(fs, fs'', j) {
      assert SameInode(fs, fs', j) && SameInode(fs', fs'', j);
    }
  }

  lemma UnlinkChangesOnly(fs: Fs, name: Name, i: Inode)
    ensures OnlyChanged(fs, Unlink(fs, name), {name}, i)
  {
  }

  lemma CreateChangesOnly(fs: Fs, name: Name, i: Inode, m: nat)
    requires name !in fs.dir && i !in fs.data
    ensures OnlyChanged(fs, Create(fs, name, i, m), {name}, i)
  {
  }

  lemma AppendChangesOnly(fs: Fs, i: Inode, chunk: seq<byte>)
    requires i in fs.data
    ensures OnlyChanged(fs, Append(fs, i, chunk), {}, i)
  {
  }

  lemma SyncChangesOnly(fs: Fs, i: Inode)
    requires i in fs.data
    ensures OnlyChanged(fs, Sync(fs, i), {}, i)
  {
  }

  lemma RenameChangesOnly(fs: Fs, from: Name, to: Name, i: Inode)
    requires CanRename(fs, from, to)
    ensures OnlyChanged(fs, Rename(fs, from, to), {to, from}, i)
  {
  }

  lemma {:induction false} WritesOn(s: State, es: seq<Event>, fs: Fs, inode: Inode, done: nat, n: nat)
    requires 0 in s.writers && Run(s, es) == Some(s.(fs := fs, writers := At(s, 0, Writing(inode, done))))
    requires inode in fs.data && 0 < n <= |s.writers[0].bytes| - done
    ensures Run(s, es + [WriteSome(0, n)])
         == Some(s.(fs := Append(fs, inode, s.writers[0].bytes[done..done + n]), writers := At(s, 0, Writing(inode, done + n))))
  {
    RunExtends(s, es, WriteSome(0, n));
    assert At(s, 0, Writing(inode, done))[0 := s.writers[0].(pc := Writing(inode, done + n))] == At(s, 0, Writing(inode, done + n));
  }

  lemma {:induction false} Syncs(s: State, es: seq<Event>, fs: Fs, inode: Inode)
    requires 0 in s.writers && inode in fs.data
    requires Run(s, es) == Some(s.(fs := fs, writers := At(s, 0, Writing(inode, |s.writers[0].bytes|))))
    ensures Run(s, es + [SyncAll(0)]) == Some(s.(fs := Sync(fs, inode), writers := At(s, 0, Synced(inode))))
  {
    RunExtends(s, es, SyncAll(0));
    assert At(s, 0, Writing(inode, |s.writers[0].bytes|))[0 := s.writers[0].(pc := Synced(inode))] == At(s, 0, Synced(inode));
  }

  /** The protocol with one call on one target, `c` at `pc`, over the file system as it is now. */
  function OneCall(start: Fs, c: Writer, fs: Fs, pc: Pc): State {
    State({c.target}, start, fs, map[0 := c.(pc := pc)])
  }

  /** The protocol before any call. */
  function NoCall(start: Fs, target: Name): State { State({target}, start, start, map[]) }

  lemma {:induction false} Begins(start: Fs, c: Writer) returns (es: seq<Event>)
    ensures Run(NoCall(start, c.target), es) == Some(OneCall(start, c, Unlink(start, ScratchOf(c)), Creating))
  {
    var s := NoCall(start, c.target);
    var call := Call(0, c.target, c.pid, c.bytes, c.mode);
    RunExtends(s, [], call);
    assert [] + [call] == [call];
    assert Run(s, [call]).value == OneCall(start, c, start, Unlinking);
    RunExtends(s, [call], RemoveScratch(0));
    es := [call] + [RemoveScratch(0)];
    assert Run(s, es).value.writers == map[0 := c.(pc := Creating)];
  }

  lemma {:induction false} Advances(start: Fs, c: Writer, es: seq<Event>, fs: Fs, pc: Pc, e: Event, fs': Fs, pc': Pc)
    requires Run(NoCall(start, c.target), es) == Some(OneCall(start, c, fs, pc))
    requires Possible(OneCall(start, c, fs, pc), e) && !e.Call?
    requires Step(OneCall(start, c, fs, pc), e).fs == fs' && Step(OneCall(start, c, fs, pc), e) == OneCall(start, c, fs', pc')
    ensures Run(NoCall(start, c.target), es + [e]) == Some(OneCall(start, c, fs', pc'))
  {
    RunExtends(NoCall(start, c.target), es, e);
  }

  lemma {:induction false} Creates(start: Fs, c: Writer, es: seq<Event>, fs: Fs, inode: Inode)
    requires Run(NoCall(start, c.target), es) == Some(OneCall(start, c, fs, Creating))
    requires ScratchOf(c) !in fs.dir && inode !in fs.data
    ensures Run(NoCall(start, c.target), es + [CreateScratch(0, inode)])
         == Some(OneCall(start, c, Create(fs, ScratchOf(c), inode, c.mode), Writing(inode, 0)))
  {
    Advances(start, c, es, fs, Creating, CreateScratch(0, inode), Create(fs, ScratchOf(c), inode, c.mode), Writing(inode, 0));
  }

  /** Wherever a call stands, a failure ends it and touches nothing. */
  lemma {:induction false} Fails(start: Fs, c: Writer, es: seq<Event>, fs: Fs, pc: Pc, e: Event)
    requires Run(NoCall(start, c.target), es) == Some(OneCall(start, c, fs, pc))
    requires (e == LoseRace(0) || e == CannotReplace(0) || e == IoError(0)) && Possible(OneCall(start, c, fs, pc), e)
    ensures Run(NoCall(start, c.target), es + [e]) == Some(OneCall(start, c, fs, Failed))
  {
    Advances(start, c, es, fs, pc, e, fs, Failed);
  }

  /** The writing of the scratch file, put after what came before it. */
  lemma {:induction false} Joined(start: Fs, c: Writer, es: seq<Event>, fs: Fs, pc: Pc, more: seq<Event>, fs': Fs, pc': Pc)
    returns (all: seq<Event>)
    requires Run(NoCall(start, c.target), es) == Some(OneCall(start, c, fs, pc))
    requires var s := OneCall(start, c, fs, pc); Run(s, more) == Some(s.(fs := fs', writers := At(s, 0, pc')))
    ensures Run(NoCall(start, c.target), all) == Some(OneCall(start, c, fs', pc'))
  {
    RunAppends(NoCall(start, c.target), es, more);
    all := es + more;
    var s := OneCall(start, c, fs, pc);
    assert At(s, 0, pc') == map[0 := c.(pc := pc')];
  }

  lemma {:induction false} Renames(start: Fs, c: Writer, es: seq<Event>, fs: Fs, inode: Inode)
    requires Run(NoCall(start, c.target), es) == Some(OneCall(start, c, fs, Synced(inode)))
    requires CanRename(fs, ScratchOf(c), c.target)
    ensures Run(NoCall(start, c.target), es + [Replace(0)])
         == Some(OneCall(start, c, Rename(fs, ScratchOf(c), c.target), Done(inode)))
  {
    Advances(start, c, es, fs, Synced(inode), Replace(0), Rename(fs, ScratchOf(c), c.target), Done(inode));
  }

  /** What holds of every run holds of a call on a file system at rest: the target is never torn, here or on the disk. */
  lemma {:induction false} OneCallNeverTears(start: Fs, path: Name, es: seq<Event>)
    requires Settled(start) && Run(NoCall(start, path), es).Some?
    ensures var s := Run(NoCall(start, path), es).value;
            && (Untouched(s, s.fs.dir, s.fs.data, path) || HoldsOneWrite(s, s.fs.dir, s.fs.data, path))
            && (Untouched(s, s.fs.durable, s.fs.disk, path) || HoldsOneWrite(s, s.fs.durable, s.fs.disk, path))
  {
    forall p: nat ensures path != Scratch(path, p) { assert |Scratch(path, p)| > |path|; }
    TargetsAreNeverTorn(start, {path}, es, path);
  }

  class Volume {
    var dir: map<Name, Entry>
    var data: map<Inode, seq<byte>>
    var mode: map<Inode, nat>
    var durable: map<Name, Entry>
    var disk: map<Inode, seq<byte>>
    var dirty: set<Inode>
    var next: Inode

    ghost predicate Valid() reads this { forall i :: i in data || i in disk || i in mode || i in dirty ==> i < next }

    ghost function Abs(): Fs reads this { Fs(dir, data, mode, durable, disk, dirty) }

    /** `remove_file`, its failure ignored. */
    method RemoveFile(name: Name)
      modifies this`dir
      ensures Abs() == Unlink(old(Abs()), name)
    {
      if name in dir && dir[name] != Directory {
        dir := dir - {name};
      }
    }

    /** `open` with `create_new(true)` and a mode. */
    method OpenNew(name: Name, m: nat) returns (r: Result<Inode, Failure>)
      requires Valid()
      modifies this`dir, this`data, this`mode, this`disk, this`dirty, this`next
      ensures Valid()
      ensures r.Ok? ==> name !in old(dir) && r.value == old(next) && Abs() == Create(old(Abs()), name, r.value, m)
      ensures r.Err? ==> Abs() == old(Abs())
      ensures r == Err(AlreadyExists) <==> name in old(dir)
      ensures r != Err(IsADirectory)
    {
      if name in dir { return Err(AlreadyExists); }
      if * { return Err(Io); }
      var inode := next;
      dir := dir[name := File(inode)];
      data := data[inode := []];
      mode := mode[inode := m];
      disk := disk[inode := []];
      dirty := dirty + {inode};
      next := next + 1;
      return Ok(inode);
    }

    method Write(inode: Inode, chunk: seq<byte>)
      requires Valid() && inode in data
      modifies this`data, this`dirty
      ensures Valid() && Abs() == Append(old(Abs()), inode, chunk)
    {
      data := data[inode := data[inode] + chunk];
      dirty := dirty + {inode};
    }

    /**
     `write_all` then `sync_all` on a file just created. `es` are the steps of the protocol this takes, from any
     state `s` of it in which call 0 is about to write these bytes to this file.
     */
    method Fill(inode: Inode, bytes: seq<byte>, ghost s: State) returns (ok: bool, ghost es: seq<Event>, ghost pc: Pc)
      requires Valid() && inode in data && data[inode] == []
      requires s.fs == Abs() && 0 in s.writers && s.writers[0].pc == Writing(inode, 0) && s.writers[0].bytes == bytes
      modifies this`data, this`disk, this`dirty
      ensures Valid() && OnlyChanged(old(Abs()), Abs(), {}, inode)
      ensures inode in data && data[inode] <= bytes
      ensures ok ==> Whole(Abs(), inode, bytes)
      ensures Run(s, es) == Some(s.(fs := Abs(), writers := At(s, 0, pc)))
      ensures if ok then pc == Synced(inode) else pc.Writing?
    {
      var done := 0;
      es := [];
      assert At(s, 0, Writing(inode, 0)) == s.writers;
      while done < |bytes|
        invariant 0 <= done <= |bytes|
        invariant Valid() && OnlyChanged(old(Abs()), Abs(), {}, inode)
        invariant inode in data && data[inode] == bytes[..done]
        invariant Run(s, es) == Some(s.(fs := Abs(), writers := At(s, 0, Writing(inode, done))))
      {
        if * { return false, es, Writing(inode, done); }
        var n: nat :| 0 < n <= |bytes| - done;
        assert bytes[..done] + bytes[done..done + n] == bytes[..done + n];
        ghost var before := Abs();
        AppendChangesOnly(before, inode, bytes[done..done + n]);
        Write(inode, bytes[done..done + n]);
        ChangesCompose(old(Abs()), before, Abs(), {}, {}, inode);
        WritesOn(s, es, before, inode, done, n);
        es := es + [WriteSome(0, n)];
        done := done + n;
      }
      assert bytes[..done] == bytes;
      if * { return false, es, Writing(inode, done); }
      ghost var before := Abs();
      SyncChangesOnly(before, inode);
      disk := disk[inode := data[inode]];
      dirty := dirty - {inode};
      assert Abs() == Sync(before, inode);
      ChangesCompose(old(Abs()), before, Abs(), {}, {}, inode);
      Syncs(s, es, before, inode);
      return true, es + [SyncAll(0)], Synced(inode);
    }

    /** Creates `name` at `m`, holding `bytes` once it succeeds; a failure part-way leaves a prefix. */
    method CreateFilled(name: Name, bytes: seq<byte>, m: nat) returns (r: Result<Inode, Failure>)
      requires Valid()
      modifies this
      ensures Valid() && OnlyChanged(old(Abs()), Abs(), {name}, old(next))
      ensures r == Err(AlreadyExists) <==> name in old(dir)
      ensures r != Err(IsADirectory)
      ensures name in old(dir) ==> Abs() == old(Abs())
      ensures name !in old(dir) && name in dir ==>
                && dir[name] == File(old(next)) && old(next) in mode && mode[old(next)] == m
                && old(next) in data && data[old(next)] <= bytes
      ensures r.Ok? ==> r.value == old(next) && name in dir && name !in old(dir) && Whole(Abs(), old(next), bytes)
    {
      if name !in dir { CreateChangesOnly(Abs(), name, next, m); }
      var created := OpenNew(name, m);
      if created.Err? { return Err(created.error); }
      ghost var empty := Abs();
      ghost var s := State({}, empty, empty, map[0 := Writer(name, 0, bytes, m, Writing(created.value, 0))]);
      var filled, _, _ := Fill(created.value, bytes, s);
      ChangesCompose(old(Abs()), empty, Abs(), {name}, {}, created.value);
      return if filled then Ok(created.value) else Err(Io);
    }

    /** `rename`. */
    method MoveOver(from: Name, to: Name) returns (r: Result<(), Failure>)
      requires from in dir
      modifies this`dir
      ensures r.Ok? ==> CanRename(old(Abs()), from, to) && Abs() == Rename(old(Abs()), from, to)
      ensures r.Err? ==> Abs() == old(Abs())
      ensures r == Err(IsADirectory) <==> Lookup(old(dir), to) == Some(Directory)
      ensures r != Err(AlreadyExists)
    {
      if to in dir && dir[to] == Directory { return Err(IsADirectory); }
      if * { return Err(Io); }
      dir := (dir - {from})[to := dir[from]];
      return Ok(());
    }

    /** The call up to its rename: a scratch file of its own, filled and synced, or a failure. */
    method Prepare(path: Name, pid: nat, bytes: seq<byte>, m: nat)
      returns (r: Result<Inode, Failure>, ghost es: seq<Event>)
      requires Valid()
      modifies this
      ensures Valid() && OnlyChanged(old(Abs()), Abs(), {Scratch(path, pid)}, old(next))
      ensures r.Ok? ==> && r.value == old(next) && Lookup(dir, Scratch(path, pid)) == Some(File(r.value))
                        && Whole(Abs(), r.value, bytes) && r.value in mode && mode[r.value] == m
      ensures r == Err(AlreadyExists) <==> Lookup(old(dir), Scratch(path, pid)) == Some(Directory)
      ensures r != Err(IsADirectory)
      ensures Run(NoCall(old(Abs()), path), es)
           == Some(OneCall(old(Abs()), Writer(path, pid, bytes, m, Unlinking), Abs(), if r.Ok? then Synced(r.value) else Failed))
    {
      ghost var start, c := Abs(), Writer(path, pid, bytes, m, Unlinking);
      r, es := OpenScratch(path, pid, bytes, m);
      if r.Err? { return; }
      ghost var empty := Abs();
      var filled, more, pc := Fill(r.value, bytes, OneCall(start, c, empty, Writing(r.value, 0)));
      ChangesCompose(start, empty, Abs(), {Scratch(path, pid)}, {}, r.value);
      es := Joined(start, c, es, empty, Writing(r.value, 0), more, Abs(), pc);
      if !filled {
        Fails(start, c, es, Abs(), pc, IoError(0));
        return Err(Io), es + [IoError(0)];
      }
    }

    /** A stale scratch file is removed, whatever it is, and a new one created. */
    method OpenScratch(path: Name, pid: nat, ghost bytes: seq<byte>, m: nat)
      returns (r: Result<Inode, Failure>, ghost es: seq<Event>)
      requires Valid()
      modifies this
      ensures Valid() && OnlyChanged(old(Abs()), Abs(), {Scratch(path, pid)}, old(next))
      ensures r.Ok? ==> && r.value == old(next) && Lookup(dir, Scratch(path, pid)) == Some(File(r.value))
                        && r.value in data && data[r.value] == [] && r.value in mode && mode[r.value] == m
      ensures r == Err(AlreadyExists) <==> Lookup(old(dir), Scratch(path, pid)) == Some(Directory)
      ensures r != Err(IsADirectory)
      ensures Run(NoCall(old(Abs()), path), es)
           == Some(OneCall(old(Abs()), Writer(path, pid, bytes, m, Unlinking), Abs(), if r.Ok? then Writing(r.value, 0) else Failed))
    {
      ghost var start, c := Abs(), Writer(path, pid, bytes, m, Unlinking);
      var temp := Scratch(path, pid);
      UnlinkChangesOnly(start, temp, next);
      es := Begins(start, c);
      RemoveFile(temp);
      ghost var cleared := Abs();
      if temp !in dir { CreateChangesOnly(cleared, temp, next, m); }
      r := OpenNew(temp, m);
      if r.Ok? {
        Creates(start, c, es, cleared, r.value);
        ChangesCompose(start, cleared, Abs(), {temp}, {temp}, r.value);
        es := es + [CreateScratch(0, r.value)];
      } else {
        ghost var e := if r.error == AlreadyExists then LoseRace(0) else IoError(0);
        Fails(start, c, es, cleared, Creating, e);
        es := es + [e];
      }
    }

    /**
     On success the target names an inode this call created, holding all of `bytes` here and on the disk, at
     `m`; the scratch name is gone. On failure the target is as it was. Either way no other inode changed,
     whatever stood at the scratch path before. `es` is the run of the protocol that the call is, so what holds
     of every run holds of it.
     */
    method WriteAtomic(path: Name, pid: nat, bytes: seq<byte>, m: nat)
      returns (r: Result<Inode, Failure>, ghost es: seq<Event>)
      requires Valid()
      modifies this
      ensures Valid()
      ensures OnlyChanged(old(Abs()), Abs(), {path, Scratch(path, pid)}, old(next))
      ensures r.Ok? ==> && r.value == old(next) && Lookup(dir, path) == Some(File(r.value))
                        && Whole(Abs(), r.value, bytes) && r.value in mode && mode[r.value] == m
                        && Scratch(path, pid) !in dir
      ensures r.Err? ==> Lookup(dir, path) == Lookup(old(dir), path)
      ensures r == Err(AlreadyExists) <==> Lookup(old(dir), Scratch(path, pid)) == Some(Directory)
      ensures r == Err(IsADirectory) ==> Lookup(old(dir), path) == Some(Directory)
      ensures Lookup(old(dir), path) == Some(Directory) ==> r.Err?
      ensures Run(NoCall(old(Abs()), path), es)
           == Some(OneCall(old(Abs()), Writer(path, pid, bytes, m, Unlinking), Abs(), if r.Ok? then Done(r.value) else Failed))
    {
      ghost var start, c := Abs(), Writer(path, pid, bytes, m, Unlinking);
      var temp := Scratch(path, pid);
      assert temp[|path|] == '.' && |temp| > |path|;
      r, es := Prepare(path, pid, bytes, m);
      if r.Err? { return; }
      ghost var full := Abs();
      var moved := MoveOver(temp, path);
      if moved.Err? {
        ghost var e := if moved.error == IsADirectory then CannotReplace(0) else IoError(0);
        Fails(start, c, es, full, Synced(r.value), e);
        return Err(moved.error), es + [e];
      }
      RenameChangesOnly(full, temp, path, r.value);
      ChangesCompose(start, full, Abs(), {path, temp}, {path, temp}, r.value);
      Renames(start, c, es, full, r.value);
      es := es + [Replace(0)];
    }

    /** A key file is owner-only from the moment it exists, and never replaces or follows what is already there. */
    method WritePrivateKey(path: Name, pem: seq<byte>) returns (r: Result<Inode, Failure>)
      requires Valid()
      modifies this
      ensures Valid() && OnlyChanged(old(Abs()), Abs(), {path}, old(next))
      ensures path !in old(dir) && path in dir ==>
                && dir[path] == File(old(next)) && old(next) in mode && mode[old(next)] == OWNER_ONLY
                && old(next) in data && data[old(next)] <= pem
      // Read and write for the owner, and no bit for the group or for others.
      ensures path !in old(dir) && path in dir ==> mode[old(next)] / 0x40 == 6 && mode[old(next)] % 0x40 == 0
      ensures r.Ok? ==> path in dir && path !in old(dir) && Whole(Abs(), old(next), pem)
      ensures r == Err(AlreadyExists) <==> path in old(dir)
      ensures path in old(dir) ==> Abs() == old(Abs())
    {
      r := CreateFilled(path, pem, OWNER_ONLY);
    }
  }
}
