/**
 Atomic file replacement (crates/core/src/pemfile.rs, `write_atomic`) as a protocol over a file system that
 any number of writers share and that can lose power at any step.

 A file system has the directory and contents that processes see and the ones that have reached the disk.
 Names reach the disk one at a time in any order; the disk content of an inode that was written and not yet
 synced is arbitrary. Inodes are never reused.
 */
module AtomicFile {
  import opened Prelude
  import opened Strings

  type Name = string
  type Inode = nat

  datatype Entry = File(inode: Inode) | Symlink(to: Name) | Directory

  datatype Fs = Fs(
    dir: map<Name, Entry>,
    data: map<Inode, seq<byte>>,
    mode: map<Inode, nat>,
    durable: map<Name, Entry>,
    disk: map<Inode, seq<byte>>,
    dirty: set<Inode>)

  // ---------------------------------------------------------------------------------------------
  // The scratch name

  /** `path` with `.{pid}.tmp` appended. */
  function Scratch(path: Name, pid: nat): Name {
    path + "." + Decimal(pid) + ".tmp"
  }

  lemma LastDot(a: string, x: string)
    requires '.' !in x
    ensures var s := a + "." + x; s[|a|] == '.' && forall i :: |a| < i < |s| ==> s[i] != '.'
  {
  }

  /** Two strings that end in a dot and a dot-free tail are equal only piece by piece. */
  lemma SplitAtLastDot(a: string, x: string, b: string, y: string)
    requires '.' !in x && '.' !in y && a + "." + x == b + "." + y
    ensures a == b && x == y
  {
    var s := a + "." + x;
    LastDot(a, x);
    LastDot(b, y);
    assert |a| == |b|;
    assert a == s[..|a|] && b == s[..|b|];
    assert x == s[|a| + 1..] && y == s[|b| + 1..];
  }

  /** Two calls have the same scratch name only if they have the same target and the same process. */
  lemma ScratchIsInjective(path: Name, pid: nat, path': Name, pid': nat)
    requires Scratch(path, pid) == Scratch(path', pid')
    ensures path == path' && pid == pid'
  {
    var l := path + "." + Decimal(pid);
    var r := path' + "." + Decimal(pid');
    assert l == Scratch(path, pid)[..|Scratch(path, pid)| - 4];
    assert r == Scratch(path', pid')[..|Scratch(path', pid')| - 4];
    SplitAtLastDot(path, Decimal(pid), path', Decimal(pid'));
    DecimalReadsBack(pid);
    DecimalReadsBack(pid');
  }

  // ---------------------------------------------------------------------------------------------
  // System calls

  /** `unlink`: takes a file or a link away, fails on anything else; the caller ignores the failure. */
  function Unlink(fs: Fs, name: Name): Fs {
    if name in fs.dir && fs.dir[name] != Directory then fs.(dir := fs.dir - {name}) else fs
  }

  /** `open` with `O_CREAT | O_EXCL`: creates a file at the mode; a link in the way makes it fail. */
  function Create(fs: Fs, name: Name, inode: Inode, mode: nat): Fs
    requires name !in fs.dir && inode !in fs.data
  {
    fs.(dir := fs.dir[name := File(inode)],
        data := fs.data[inode := []],
        mode := fs.mode[inode := mode],
        disk := fs.disk[inode := []],
        dirty := fs.dirty + {inode})
  }

  function Append(fs: Fs, inode: Inode, chunk: seq<byte>): Fs
    requires inode in fs.data
  {
    fs.(data := fs.data[inode := fs.data[inode] + chunk], dirty := fs.dirty + {inode})
  }

  function Sync(fs: Fs, inode: Inode): Fs
    requires inode in fs.data
  {
    fs.(disk := fs.disk[inode := fs.data[inode]], dirty := fs.dirty - {inode})
  }

  predicate CanRename(fs: Fs, from: Name, to: Name) {
    from in fs.dir && !(to in fs.dir && fs.dir[to] == Directory)
  }

  function Rename(fs: Fs, from: Name, to: Name): Fs
    requires CanRename(fs, from, to)
  {
    fs.(dir := (fs.dir - {from})[to := fs.dir[from]])
  }

  /** The file system after losing power: only what reached the disk is left. */
  function PowerLoss(fs: Fs): Fs {
    fs.(dir := fs.durable, data := fs.disk, dirty := {})
  }

  /**
   Why a file is synced before it is renamed: when the new name reaches the disk and the power then fails, the
   target holds all the bytes if they were synced, and otherwise what the disk had of them, which may be nothing.
   */
  lemma {:induction false} SyncComesFirst(fs: Fs, scratch: Name, target: Name, inode: Inode, mode: nat, bytes: seq<byte>)
    requires scratch !in fs.dir && inode !in fs.data && scratch != target && !(target in fs.dir && fs.dir[target] == Directory)
    ensures var filled := Append(Create(fs, scratch, inode, mode), inode, bytes);
            var early, late := PowerLoss(Flush(Rename(filled, scratch, target), target)),
                               PowerLoss(Flush(Rename(Sync(filled, inode), scratch, target), target));
            && target in early.dir && early.dir[target] == File(inode) && early.data[inode] == []
            && target in late.dir && late.dir[target] == File(inode) && late.data[inode] == bytes
  {
    assert [] + bytes == bytes;
  }

  // ---------------------------------------------------------------------------------------------
  // Writers

  /** How far a call has come. `Writing` has put `done` bytes into the inode it created. */
  datatype Pc =
    | Unlinking
    | Creating
    | Writing(inode: Inode, done: nat)
    | Synced(inode: Inode)
    | Done(inode: Inode)
    | Failed

  datatype Writer = Writer(target: Name, pid: nat, bytes: seq<byte>, mode: nat, pc: Pc)

  datatype State = State(targets: set<Name>, start: Fs, fs: Fs, writers: map<nat, Writer>)

  datatype Event =
    | Call(w: nat, target: Name, pid: nat, bytes: seq<byte>, mode: nat)
    | RemoveScratch(w: nat)
    | CreateScratch(w: nat, inode: Inode)
    | LoseRace(w: nat)
    | WriteSome(w: nat, count: nat)
    | SyncAll(w: nat)
    | Replace(w: nat)
    | CannotReplace(w: nat)
    | IoError(w: nat)
    | Plant(name: Name, entry: Entry, content: seq<byte>)
    | FlushName(name: Name)
    | Writeback(inode: Inode, junk: seq<byte>)
    | Crash

  predicate Active(w: Writer) { !w.pc.Done? && !w.pc.Failed? }

  predicate HasInode(w: Writer) { w.pc.Writing? || w.pc.Synced? || w.pc.Done? }

  function ScratchOf(w: Writer): Name { Scratch(w.target, w.pid) }

  /** What the operating system and the program text allow. */
  predicate Possible(s: State, e: Event) {
    match e
    case Call(w, target, _, _, _) => w !in s.writers && target in s.targets
    case RemoveScratch(w) => w in s.writers && s.writers[w].pc == Unlinking
    case CreateScratch(w, inode) =>
      w in s.writers && s.writers[w].pc == Creating && ScratchOf(s.writers[w]) !in s.fs.dir && inode !in s.fs.data
    case LoseRace(w) => w in s.writers && s.writers[w].pc == Creating && ScratchOf(s.writers[w]) in s.fs.dir
    case WriteSome(w, count) =>
      w in s.writers && s.writers[w].pc.Writing? && s.writers[w].pc.inode in s.fs.data
      && 0 < count <= |s.writers[w].bytes| - s.writers[w].pc.done
    case SyncAll(w) =>
      w in s.writers && s.writers[w].pc.Writing? && s.writers[w].pc.inode in s.fs.data
      && s.writers[w].pc.done == |s.writers[w].bytes|
    case Replace(w) =>
      w in s.writers && s.writers[w].pc.Synced? && CanRename(s.fs, ScratchOf(s.writers[w]), s.writers[w].target)
    case CannotReplace(w) =>
      w in s.writers && s.writers[w].pc.Synced? && !CanRename(s.fs, ScratchOf(s.writers[w]), s.writers[w].target)
    case IoError(w) => w in s.writers && Active(s.writers[w])
    case Plant(name, entry, _) => name !in s.fs.dir && name !in s.targets && (entry.File? ==> entry.inode !in s.fs.data)
    case FlushName(_) => true
    case Writeback(inode, _) => inode in s.fs.dirty
    case Crash => true
  }

  /** Concurrent calls never share both target and process. */
  predicate Disciplined(s: State, e: Event) {
    e.Call? ==> forall v :: v in s.writers && Active(s.writers[v]) ==>
      !(s.writers[v].target == e.target && s.writers[v].pid == e.pid)
  }

  function At(s: State, w: nat, pc: Pc): map<nat, Writer>
    requires w in s.writers
  {
    s.writers[w := s.writers[w].(pc := pc)]
  }

  function Killed(writers: map<nat, Writer>): map<nat, Writer> {
    map w | w in writers :: if Active(writers[w]) then writers[w].(pc := Failed) else writers[w]
  }

  function PlantEntry(fs: Fs, name: Name, entry: Entry, content: seq<byte>): Fs {
    var named := fs.(dir := fs.dir[name := entry]);
    if entry.File? then
      named.(data := fs.data[entry.inode := content], mode := fs.mode[entry.inode := 0],
             disk := fs.disk[entry.inode := content], dirty := fs.dirty + {entry.inode})
    else named
  }

  function Flush(fs: Fs, name: Name): Fs {
    fs.(durable := if name in fs.dir then fs.durable[name := fs.dir[name]] else fs.durable - {name})
  }

  function Removed(s: State, w: nat): State
    requires w in s.writers
  {
    s.(fs := Unlink(s.fs, ScratchOf(s.writers[w])), writers := At(s, w, Creating))
  }

  function Created(s: State, w: nat, inode: Inode): State
    requires w in s.writers && ScratchOf(s.writers[w]) !in s.fs.dir && inode !in s.fs.data
  {
    s.(fs := Create(s.fs, ScratchOf(s.writers[w]), inode, s.writers[w].mode), writers := At(s, w, Writing(inode, 0)))
  }

  function Wrote(s: State, w: nat, count: nat): State
    requires Possible(s, WriteSome(w, count))
  {
    var wr := s.writers[w];
    s.(fs := Append(s.fs, wr.pc.inode, wr.bytes[wr.pc.done..wr.pc.done + count]),
       writers := At(s, w, Writing(wr.pc.inode, wr.pc.done + count)))
  }

  function Replaced(s: State, w: nat): State
    requires Possible(s, Replace(w))
  {
    s.(fs := Rename(s.fs, ScratchOf(s.writers[w]), s.writers[w].target), writers := At(s, w, Done(s.writers[w].pc.inode)))
  }

  function Crashed(s: State): State {
    s.(fs := PowerLoss(s.fs), writers := Killed(s.writers))
  }

  function Step(s: State, e: Event): State
    requires Possible(s, e)
  {
    match e
    case Call(w, target, pid, bytes, mode) =>
      s.(writers := s.writers[w := Writer(target, pid, bytes, mode, Unlinking)])
    case RemoveScratch(w) => Removed(s, w)
    case CreateScratch(w, inode) => Created(s, w, inode)
    case LoseRace(w) => s.(writers := At(s, w, Failed))
    case WriteSome(w, count) => Wrote(s, w, count)
    case SyncAll(w) =>
      s.(fs := Sync(s.fs, s.writers[w].pc.inode), writers := At(s, w, Synced(s.writers[w].pc.inode)))
    case Replace(w) => Replaced(s, w)
    case CannotReplace(w) => s.(writers := At(s, w, Failed))
    case IoError(w) => s.(writers := At(s, w, Failed))
    case Plant(name, entry, content) => s.(fs := PlantEntry(s.fs, name, entry, content))
    case FlushName(name) => s.(fs := Flush(s.fs, name))
    case Writeback(inode, junk) => s.(fs := s.fs.(disk := s.fs.disk[inode := junk]))
    case Crash => Crashed(s)
  }

  /** The state after a sequence of events, or `None` when one of them was impossible or broke the discipline. */
  function Run(s: State, es: seq<Event>): Option<State> {
    if es == [] then Some(s)
    else
      var before := Run(s, es[..|es| - 1]);
      var e := es[|es| - 1];
      if before.Some? && Possible(before.value, e) && Disciplined(before.value, e) then Some(Step(before.value, e)) else None
  }

  lemma {:induction false} RunExtends(s: State, es: seq<Event>, e: Event)
    requires Run(s, es).Some? && Possible(Run(s, es).value, e) && Disciplined(Run(s, es).value, e)
    ensures Run(s, es + [e]) == Some(Step(Run(s, es).value, e))
  {
    assert (es + [e])[..|es|] == es;
  }

  lemma {:induction false} RunAppends(s: State, es: seq<Event>, more: seq<Event>)
    requires Run(s, es).Some? && Run(Run(s, es).value, more).Some?
    ensures Run(s, es + more) == Run(Run(s, es).value, more)
  {
    if more == [] {
      assert es + more == es;
    } else {
      var last := |more| - 1;
      RunAppends(s, es, more[..last]);
      RunExtends(s, es + more[..last], more[last]);
      assert es + more == es + more[..last] + [more[last]];
    }
  }

  /** A file system at rest: everything it shows is on the disk. */
  predicate Settled(fs: Fs) {
    && fs.durable == fs.dir && fs.disk == fs.data && fs.dirty == {}
    && (forall n :: n in fs.dir && fs.dir[n].File? ==> fs.dir[n].inode in fs.data)
  }

  /** No target is itself the scratch name of a call on a target. */
  ghost predicate Separate(targets: set<Name>) {
    forall t, u, p: nat :: t in targets && u in targets ==> t != Scratch(u, p)
  }

  // ---------------------------------------------------------------------------------------------
  // What every step keeps

  function Lookup(dir: map<Name, Entry>, name: Name): Option<Entry> {
    if name in dir then Some(dir[name]) else None
  }

  /** An inode holds all of `bytes`, here and on the disk, and nothing will change that. */
  predicate Whole(fs: Fs, i: Inode, bytes: seq<byte>) {
    i in fs.data && i in fs.disk && fs.data[i] == bytes && fs.disk[i] == bytes && i !in fs.dirty
  }

  predicate StartKept(s: State) {
    forall i :: i in s.start.data ==> Whole(s.fs, i, s.start.data[i])
  }

  /** A call only ever holds an inode it created with its own mode, filled with a prefix of its own bytes. */
  predicate WriterOk(s: State, w: nat)
    requires w in s.writers
  {
    var wr := s.writers[w];
    && wr.target in s.targets
    && (HasInode(wr) ==>
          && wr.pc.inode in s.fs.data && wr.pc.inode !in s.start.data
          && wr.pc.inode in s.fs.mode && s.fs.mode[wr.pc.inode] == wr.mode)
    && (HasInode(wr) && Active(wr) ==> Lookup(s.fs.dir, ScratchOf(wr)) == Some(File(wr.pc.inode)))
    && (wr.pc.Writing? ==> wr.pc.done <= |wr.bytes| && s.fs.data[wr.pc.inode] == wr.bytes[..wr.pc.done])
    && (wr.pc.Synced? || wr.pc.Done? ==> Whole(s.fs, wr.pc.inode, wr.bytes))
  }

  /** Active calls differ in target or process, and no two calls hold the same inode. */
  predicate Apart(s: State) {
    forall v, w :: v in s.writers && w in s.writers && v != w ==>
      && (Active(s.writers[v]) && Active(s.writers[w]) ==>
            s.writers[v].target != s.writers[w].target || s.writers[v].pid != s.writers[w].pid)
      && (HasInode(s.writers[v]) && HasInode(s.writers[w]) ==> s.writers[v].pc.inode != s.writers[w].pc.inode)
  }

  /** In `dir`, target `t` is as it was at the start or names the inode of a finished call on `t`. */
  predicate TargetOk(s: State, dir: map<Name, Entry>, t: Name) {
    || Lookup(dir, t) == Lookup(s.start.dir, t)
    || exists w :: w in s.writers && s.writers[w].target == t && s.writers[w].pc.Done?
                   && Lookup(dir, t) == Some(File(s.writers[w].pc.inode))
  }

  /** What holds of the calls and the inodes. */
  predicate Core(s: State) {
    && s.fs.disk.Keys == s.fs.data.Keys
    && s.fs.dirty <= s.fs.data.Keys
    && StartKept(s)
    && (forall w :: w in s.writers ==> WriterOk(s, w))
    && Apart(s)
  }

  /** What holds of the targets, as processes see them and as the disk would show them. */
  predicate TargetsOk(s: State) {
    forall t :: t in s.targets ==> TargetOk(s, s.fs.dir, t) && TargetOk(s, s.fs.durable, t)
  }

  lemma ScratchIsPrivate(s: State, w: nat)
    requires Separate(s.targets) && Core(s) && w in s.writers && Active(s.writers[w])
    ensures ScratchOf(s.writers[w]) !in s.targets
    ensures forall v :: v in s.writers && v != w && Active(s.writers[v]) ==> ScratchOf(s.writers[v]) != ScratchOf(s.writers[w])
  {
    assert WriterOk(s, w);
    forall v | v in s.writers && v != w && Active(s.writers[v])
      ensures ScratchOf(s.writers[v]) != ScratchOf(s.writers[w])
    {
      if ScratchOf(s.writers[v]) == ScratchOf(s.writers[w]) {
        ScratchIsInjective(s.writers[v].target, s.writers[v].pid, s.writers[w].target, s.writers[w].pid);
      }
    }
  }

  /** Nothing about inode `i` differs between two file systems. */
  predicate SameInode(fs: Fs, fs': Fs, i: Inode) {
    && (i in fs.data <==> i in fs'.data) && (i in fs.data ==> fs'.data[i] == fs.data[i])
    && (i in fs.disk <==> i in fs'.disk) && (i in fs.disk ==> fs'.disk[i] == fs.disk[i])
    && (i in fs.mode <==> i in fs'.mode) && (i in fs.mode ==> fs'.mode[i] == fs.mode[i])
    && (i in fs.dirty <==> i in fs'.dirty)
  }

  /** A call whose inode and scratch name were left alone is as it was. */
  lemma WriterFrame(s: State, s': State, v: nat)
    requires s'.targets == s.targets && s'.start == s.start
    requires v in s.writers && v in s'.writers && s'.writers[v] == s.writers[v] && WriterOk(s, v)
    requires HasInode(s.writers[v]) ==> SameInode(s.fs, s'.fs, s.writers[v].pc.inode)
    requires HasInode(s.writers[v]) && Active(s.writers[v]) ==>
               Lookup(s'.fs.dir, ScratchOf(s.writers[v])) == Lookup(s.fs.dir, ScratchOf(s.writers[v]))
    ensures WriterOk(s', v)
  {
  }

  lemma StartFrame(s: State, s': State)
    requires s'.start == s.start && StartKept(s)
    requires forall i :: i in s.start.data ==> SameInode(s.fs, s'.fs, i)
    ensures StartKept(s')
  {
  }

  /** One call moving on keeps calls apart, unless it takes an inode another call already has. */
  lemma ApartFrame(s: State, s': State, w: nat, pc: Pc)
    requires Apart(s) && w in s.writers && s'.writers == At(s, w, pc)
    requires Active(s.writers[w])
    requires HasInode(s'.writers[w]) ==>
               forall v :: v in s.writers && v != w && HasInode(s.writers[v]) ==> s.writers[v].pc.inode != pc.inode
    ensures Apart(s')
  {
  }

  lemma CallKeepsCore(s: State, e: Event)
    requires Core(s) && e.Call? && Possible(s, e) && Disciplined(s, e)
    ensures Core(Step(s, e))
  {
    var s' := Step(s, e);
    forall v | v in s'.writers ensures WriterOk(s', v) {
      if v != e.w { WriterFrame(s, s', v); }
    }
  }

  lemma FailKeepsCore(s: State, w: nat)
    requires Core(s) && w in s.writers && Active(s.writers[w])
    ensures Core(s.(writers := At(s, w, Failed)))
  {
    var s' := s.(writers := At(s, w, Failed));
    ApartFrame(s, s', w, Failed);
    forall v | v in s'.writers ensures WriterOk(s', v) {
      assert WriterOk(s, v);
      if v != w { WriterFrame(s, s', v); }
    }
  }

  lemma RemoveKeepsCore(s: State, w: nat)
    requires Separate(s.targets) && Core(s) && w in s.writers && s.writers[w].pc == Unlinking
    ensures Core(Removed(s, w))
  {
    var s' := Removed(s, w);
    ScratchIsPrivate(s, w);
    StartFrame(s, s');
    ApartFrame(s, s', w, Creating);
    forall v | v in s'.writers ensures WriterOk(s', v) {
      assert WriterOk(s, v);
      if v != w { WriterFrame(s, s', v); }
    }
  }

  lemma FreshInode(s: State, inode: Inode)
    requires Core(s) && inode !in s.fs.data
    ensures inode !in s.start.data
    ensures forall v :: v in s.writers && HasInode(s.writers[v]) ==> s.writers[v].pc.inode != inode
  {
  }

  lemma CreateKeepsCore(s: State, w: nat, inode: Inode)
    requires Separate(s.targets) && Core(s) && w in s.writers && s.writers[w].pc == Creating
    requires ScratchOf(s.writers[w]) !in s.fs.dir && inode !in s.fs.data
    ensures Core(Created(s, w, inode))
  {
    var s' := Created(s, w, inode);
    FreshInode(s, inode);
    ScratchIsPrivate(s, w);
    StartFrame(s, s');
    ApartFrame(s, s', w, Writing(inode, 0));
    assert WriterOk(s, w);
    forall v | v in s'.writers ensures WriterOk(s', v) {
      if v != w { WriterFrame(s, s', v); }
    }
  }

  /** Changing one unfinished inode, in content or on the disk, disturbs nobody else. */
  lemma OwnInodeKeepsCore(s: State, s': State, w: nat, pc: Pc)
    requires Core(s) && w in s.writers && s.writers[w].pc.Writing?
    requires s'.targets == s.targets && s'.start == s.start && s'.fs.dir == s.fs.dir
    requires s'.writers == At(s, w, pc) && (pc.Writing? || pc.Synced?) && pc.inode == s.writers[w].pc.inode
    requires s'.fs.disk.Keys == s'.fs.data.Keys && s'.fs.dirty <= s'.fs.data.Keys
    requires forall i :: i != pc.inode ==> SameInode(s.fs, s'.fs, i)
    requires WriterOk(s', w)
    ensures Core(s')
  {
    assert WriterOk(s, w);
    StartFrame(s, s');
    ApartFrame(s, s', w, pc);
    forall v | v in s'.writers ensures WriterOk(s', v) {
      assert WriterOk(s, v);
      if v != w { WriterFrame(s, s', v); }
    }
  }

  lemma WriteKeepsCore(s: State, w: nat, count: nat)
    requires Core(s) && Possible(s, WriteSome(w, count))
    ensures Core(Wrote(s, w, count))
  {
    var wr := s.writers[w];
    assert WriterOk(s, w);
    assert wr.bytes[..wr.pc.done] + wr.bytes[wr.pc.done..wr.pc.done + count] == wr.bytes[..wr.pc.done + count];
    OwnInodeKeepsCore(s, Wrote(s, w, count), w, Writing(wr.pc.inode, wr.pc.done + count));
  }

  lemma SyncKeepsCore(s: State, w: nat)
    requires Core(s) && Possible(s, SyncAll(w))
    ensures Core(s.(fs := Sync(s.fs, s.writers[w].pc.inode), writers := At(s, w, Synced(s.writers[w].pc.inode))))
  {
    var s' := s.(fs := Sync(s.fs, s.writers[w].pc.inode), writers := At(s, w, Synced(s.writers[w].pc.inode)));
    assert WriterOk(s, w);
    OwnInodeKeepsCore(s, s', w, Synced(s.writers[w].pc.inode));
  }

  lemma ReplaceKeepsCore(s: State, w: nat)
    requires Separate(s.targets) && Core(s) && Possible(s, Replace(w))
    ensures Core(Replaced(s, w))
  {
    var s' := Replaced(s, w);
    assert WriterOk(s, w);
    ScratchIsPrivate(s, w);
    StartFrame(s, s');
    ApartFrame(s, s', w, Done(s.writers[w].pc.inode));
    forall v | v in s'.writers ensures WriterOk(s', v) {
      assert WriterOk(s, v);
      if v != w {
        if Active(s.writers[v]) { ScratchIsPrivate(s, v); }
        WriterFrame(s, s', v);
      }
    }
  }

  lemma PlantKeepsCore(s: State, name: Name, entry: Entry, content: seq<byte>)
    requires Core(s) && (entry.File? ==> entry.inode !in s.fs.data) && name !in s.fs.dir
    ensures Core(s.(fs := PlantEntry(s.fs, name, entry, content)))
  {
    var s' := s.(fs := PlantEntry(s.fs, name, entry, content));
    assert forall i :: i in s.start.data ==> Whole(s.fs, i, s.start.data[i]);
    StartFrame(s, s');
    forall v | v in s'.writers ensures WriterOk(s', v) {
      assert WriterOk(s, v);
      WriterFrame(s, s', v);
    }
  }

  lemma FlushKeepsCore(s: State, name: Name)
    requires Core(s)
    ensures Core(s.(fs := Flush(s.fs, name)))
  {
  }

  lemma WritebackKeepsCore(s: State, inode: Inode, junk: seq<byte>)
    requires Core(s) && inode in s.fs.dirty
    ensures Core(s.(fs := s.fs.(disk := s.fs.disk[inode := junk])))
  {
    var s' := s.(fs := s.fs.(disk := s.fs.disk[inode := junk]));
    assert forall i :: i in s.start.data ==> Whole(s.fs, i, s.start.data[i]);
    StartFrame(s, s');
    forall v | v in s'.writers ensures WriterOk(s', v) {
      assert WriterOk(s, v);
    }
  }

  lemma CrashKeepsCore(s: State)
    requires Core(s)
    ensures Core(Crashed(s))
  {
    var s' := Crashed(s);
    forall i | i in s'.start.data ensures Whole(s'.fs, i, s'.start.data[i]) {
      assert Whole(s.fs, i, s.start.data[i]);
    }
    forall v | v in s'.writers ensures WriterOk(s', v) {
      assert WriterOk(s, v);
    }
  }

  lemma StepKeepsCore(s: State, e: Event)
    requires Separate(s.targets) && Core(s) && Possible(s, e) && Disciplined(s, e)
    ensures Core(Step(s, e))
  {
    match e
    case Call(_, _, _, _, _) => CallKeepsCore(s, e);
    case RemoveScratch(w) => RemoveKeepsCore(s, w);
    case CreateScratch(w, inode) => CreateKeepsCore(s, w, inode);
    case LoseRace(w) => FailKeepsCore(s, w);
    case WriteSome(w, count) => WriteKeepsCore(s, w, count);
    case SyncAll(w) => SyncKeepsCore(s, w);
    case Replace(w) => ReplaceKeepsCore(s, w);
    case CannotReplace(w) => FailKeepsCore(s, w);
    case IoError(w) => FailKeepsCore(s, w);
    case Plant(name, entry, content) => PlantKeepsCore(s, name, entry, content);
    case FlushName(name) => FlushKeepsCore(s, name);
    case Writeback(inode, junk) => WritebackKeepsCore(s, inode, junk);
    case Crash => CrashKeepsCore(s);
  }

  /** Only a rename and a power loss ever change what a target names. */
  lemma TargetsChangeOnlyByRename(s: State, e: Event, t: Name)
    requires Separate(s.targets) && Core(s) && Possible(s, e) && t in s.targets
    requires e != Crash && !(e.Replace? && s.writers[e.w].target == t)
    ensures Lookup(Step(s, e).fs.dir, t) == Lookup(s.fs.dir, t)
  {
    match e
    case RemoveScratch(w) => ScratchIsPrivate(s, w);
    case CreateScratch(w, inode) => ScratchIsPrivate(s, w);
    case Replace(w) => ScratchIsPrivate(s, w);
    case _ =>
  }

  lemma FinishedStaysFinished(s: State, e: Event, w: nat)
    requires Possible(s, e) && w in s.writers && s.writers[w].pc.Done?
    ensures w in Step(s, e).writers && Step(s, e).writers[w] == s.writers[w]
  {
  }

  lemma TargetCarriesOver(s: State, e: Event, dir: map<Name, Entry>, dir': map<Name, Entry>, t: Name)
    requires Possible(s, e) && TargetOk(s, dir, t) && Lookup(dir', t) == Lookup(dir, t)
    ensures TargetOk(Step(s, e), dir', t)
  {
    if Lookup(dir, t) != Lookup(s.start.dir, t) {
      var w :| w in s.writers && s.writers[w].target == t && s.writers[w].pc.Done?
               && Lookup(dir, t) == Some(File(s.writers[w].pc.inode));
      FinishedStaysFinished(s, e, w);
    }
  }

  lemma StepKeepsTarget(s: State, e: Event, t: Name)
    requires Separate(s.targets) && Core(s) && TargetsOk(s) && Possible(s, e) && t in s.targets
    ensures TargetOk(Step(s, e), Step(s, e).fs.dir, t) && TargetOk(Step(s, e), Step(s, e).fs.durable, t)
  {
    var s' := Step(s, e);
    if e.FlushName? && e.name == t {
      assert Lookup(s'.fs.durable, t) == Lookup(s.fs.dir, t);
      TargetCarriesOver(s, e, s.fs.dir, s'.fs.durable, t);
    } else {
      assert Lookup(s'.fs.durable, t) == Lookup(s.fs.durable, t);
      TargetCarriesOver(s, e, s.fs.durable, s'.fs.durable, t);
    }
    if e == Crash {
      TargetCarriesOver(s, e, s.fs.durable, s'.fs.dir, t);
    } else if e.Replace? && s.writers[e.w].target == t {
      assert WriterOk(s, e.w);
      assert s'.writers[e.w].pc.Done? && Lookup(s'.fs.dir, t) == Some(File(s'.writers[e.w].pc.inode));
    } else {
      TargetsChangeOnlyByRename(s, e, t);
      TargetCarriesOver(s, e, s.fs.dir, s'.fs.dir, t);
    }
  }

  // ---------------------------------------------------------------------------------------------
  // The guarantee

  /** Target `t` is what it was before any call: the same entry, and if it is a file, the same bytes. */
  predicate Untouched(s: State, dir: map<Name, Entry>, data: map<Inode, seq<byte>>, t: Name) {
    && Lookup(dir, t) == Lookup(s.start.dir, t)
    && (t in dir && dir[t].File? ==>
          dir[t].inode in data && dir[t].inode in s.start.data && data[dir[t].inode] == s.start.data[dir[t].inode])
  }

  /** Target `t` holds the complete bytes, at the requested mode, of one call on `t` that reached its rename. */
  predicate HoldsOneWrite(s: State, dir: map<Name, Entry>, data: map<Inode, seq<byte>>, t: Name) {
    exists w :: w in s.writers && s.writers[w].target == t && s.writers[w].pc.Done?
                && Lookup(dir, t) == Some(File(s.writers[w].pc.inode))
                && s.writers[w].pc.inode in data && data[s.writers[w].pc.inode] == s.writers[w].bytes
                && s.writers[w].pc.inode in s.fs.mode && s.fs.mode[s.writers[w].pc.inode] == s.writers[w].mode
  }

  lemma {:induction false} RunKeeps(start: Fs, targets: set<Name>, es: seq<Event>)
    requires Settled(start) && Separate(targets) && Run(State(targets, start, start, map[]), es).Some?
    ensures var s := Run(State(targets, start, start, map[]), es).value;
            s.targets == targets && s.start == start && Core(s) && TargetsOk(s)
  {
    if es != [] {
      var init := State(targets, start, start, map[]);
      RunKeeps(start, targets, es[..|es| - 1]);
      var s := Run(init, es[..|es| - 1]).value;
      var e := es[|es| - 1];
      StepKeepsCore(s, e);
      forall t | t in s.targets
        ensures TargetOk(Step(s, e), Step(s, e).fs.dir, t) && TargetOk(Step(s, e), Step(s, e).fs.durable, t)
      {
        StepKeepsTarget(s, e, t);
      }
    }
  }

  lemma TargetMeans(s: State, dir: map<Name, Entry>, data: map<Inode, seq<byte>>, t: Name)
    requires Settled(s.start) && Core(s) && TargetOk(s, dir, t)
    requires data == s.fs.data || data == s.fs.disk
    ensures Untouched(s, dir, data, t) || HoldsOneWrite(s, dir, data, t)
  {
  }

  /**
   After any interleaving of calls, planted files, write-backs and power losses, every target holds what it
   held at the start or the complete bytes of one call on it, and so it would after losing power now.
   */
  lemma TargetsAreNeverTorn(start: Fs, targets: set<Name>, es: seq<Event>, t: Name)
    requires Settled(start) && Separate(targets) && t in targets
    requires Run(State(targets, start, start, map[]), es).Some?
    ensures var s := Run(State(targets, start, start, map[]), es).value;
            && (Untouched(s, s.fs.dir, s.fs.data, t) || HoldsOneWrite(s, s.fs.dir, s.fs.data, t))
            && (Untouched(s, s.fs.durable, s.fs.disk, t) || HoldsOneWrite(s, s.fs.durable, s.fs.disk, t))
  {
    RunKeeps(start, targets, es);
    var s := Run(State(targets, start, start, map[]), es).value;
    TargetMeans(s, s.fs.dir, s.fs.data, t);
    TargetMeans(s, s.fs.durable, s.fs.disk, t);
  }

  lemma {:induction false} HeldInodeWasCreated(s0: State, es: seq<Event>, w: nat)
    requires s0.writers == map[] && Run(s0, es).Some? && w in Run(s0, es).value.writers && HasInode(Run(s0, es).value.writers[w])
    ensures CreateScratch(w, Run(s0, es).value.writers[w].pc.inode) in es
  {
    var s, e := Run(s0, es[..|es| - 1]).value, es[|es| - 1];
    if w in s.writers && HasInode(s.writers[w]) {
      HeldInodeWasCreated(s0, es[..|es| - 1], w);
      SameInodeHeld(s, e, w);
    } else {
      NewInodeIsCreated(s, e, w);
    }
  }

  lemma {:induction false} SameInodeHeld(s: State, e: Event, w: nat)
    requires Possible(s, e) && w in s.writers && HasInode(s.writers[w]) && w in Step(s, e).writers && HasInode(Step(s, e).writers[w])
    ensures Step(s, e).writers[w].pc.inode == s.writers[w].pc.inode
  {
  }

  lemma {:induction false} NewInodeIsCreated(s: State, e: Event, w: nat)
    requires Possible(s, e) && !(w in s.writers && HasInode(s.writers[w]))
    requires w in Step(s, e).writers && HasInode(Step(s, e).writers[w])
    ensures e == CreateScratch(w, Step(s, e).writers[w].pc.inode)
  {
  }

  /** Every finished call renamed an inode it created itself, new since the start, at the mode it asked for. */
  lemma RenamedInodeIsOwn(start: Fs, targets: set<Name>, es: seq<Event>, w: nat)
    requires Settled(start) && Separate(targets) && Run(State(targets, start, start, map[]), es).Some?
    requires var s := Run(State(targets, start, start, map[]), es).value; w in s.writers && s.writers[w].pc.Done?
    ensures var s := Run(State(targets, start, start, map[]), es).value; var i := s.writers[w].pc.inode;
            && CreateScratch(w, i) in es && i !in start.data
            && i in s.fs.mode && s.fs.mode[i] == s.writers[w].mode
            && Whole(s.fs, i, s.writers[w].bytes)
            && (forall v :: v in s.writers && v != w && HasInode(s.writers[v]) ==> s.writers[v].pc.inode != i)
  {
    RunKeeps(start, targets, es);
    HeldInodeWasCreated(State(targets, start, start, map[]), es, w);
    var s := Run(State(targets, start, start, map[]), es).value;
    assert WriterOk(s, w);
  }

  /** A step of a call changes no inode but the one the call created: not one behind a planted link either. */
  lemma CallTouchesOnlyItsInode(s: State, e: Event, i: Inode)
    requires Core(s) && Possible(s, e) && !e.Plant? && !e.Writeback? && e != Crash && !e.FlushName? && !e.Call?
    requires i in s.fs.data
    ensures (HasInode(s.writers[e.w]) && s.writers[e.w].pc.inode == i) || SameInode(s.fs, Step(s, e).fs, i)
  {
  }

  /** I/O errors aside, a synced call's rename is refused exactly when its target is a directory. */
  lemma RenameFailsOnlyOnADirectory(s: State, w: nat)
    requires Core(s) && w in s.writers && s.writers[w].pc.Synced?
    ensures Possible(s, CannotReplace(w)) <==> Lookup(s.fs.dir, s.writers[w].target) == Some(Directory)
  {
  }

  // ---------------------------------------------------------------------------------------------
  // Why concurrent calls must differ in target or process

  /** `Run` without the discipline. */
  function Raw(s: State, es: seq<Event>): Option<State> {
    if es == [] then Some(s)
    else
      var before := Raw(s, es[..|es| - 1]);
      var e := es[|es| - 1];
      if before.Some? && Possible(before.value, e) then Some(Step(before.value, e)) else None
  }

  lemma RawStep(s: State, es: seq<Event>, e: Event)
    requires Raw(s, es).Some? && Possible(Raw(s, es).value, e)
    ensures Raw(s, es + [e]) == Some(Step(Raw(s, es).value, e))
  {
  }

  const EMPTY_FS := Fs(map[], map[], map[], map[], map[], {})

  /** One call on `t` has synced its (empty) scratch file; another, of the same process, is about to unlink it. */
  function HalfWay(t: Name, pid: nat): State {
    State({t}, EMPTY_FS,
          Fs(map[Scratch(t, pid) := File(0)], map[0 := []], map[0 := 384], map[], map[0 := []], {}),
          map[0 := Writer(t, pid, [], 384, Synced(0)), 1 := Writer(t, pid, [3, 4], 384, Unlinking)])
  }

  lemma ReachHalfWay(t: Name, pid: nat) returns (es: seq<Event>)
    ensures Raw(State({t}, EMPTY_FS, EMPTY_FS, map[]), es) == Some(HalfWay(t, pid))
  {
    var s0 := State({t}, EMPTY_FS, EMPTY_FS, map[]);
    es := [];
    RawStep(s0, es, Call(0, t, pid, [], 384)); es := es + [Call(0, t, pid, [], 384)];
    RawStep(s0, es, RemoveScratch(0)); es := es + [RemoveScratch(0)];
    RawStep(s0, es, CreateScratch(0, 0)); es := es + [CreateScratch(0, 0)];
    RawStep(s0, es, SyncAll(0)); es := es + [SyncAll(0)];
    RawStep(s0, es, Call(1, t, pid, [3, 4], 384)); es := es + [Call(1, t, pid, [3, 4], 384)];
    assert Raw(s0, es).value.fs == HalfWay(t, pid).fs;
    assert Raw(s0, es).value.writers == HalfWay(t, pid).writers;
  }

  /** The other call has put its own scratch file in the place of the first one's. */
  function Taken(t: Name, pid: nat): State {
    State({t}, EMPTY_FS,
          Fs(map[Scratch(t, pid) := File(1)], map[0 := [], 1 := []], map[0 := 384, 1 := 384], map[], map[0 := [], 1 := []], {1}),
          map[0 := Writer(t, pid, [], 384, Synced(0)), 1 := Writer(t, pid, [3, 4], 384, Writing(1, 0))])
  }

  lemma {:induction false} ReachTaken(t: Name, pid: nat) returns (es: seq<Event>)
    ensures Raw(State({t}, EMPTY_FS, EMPTY_FS, map[]), es) == Some(Taken(t, pid))
  {
    var s0 := State({t}, EMPTY_FS, EMPTY_FS, map[]);
    es := ReachHalfWay(t, pid);
    RawStep(s0, es, RemoveScratch(1)); es := es + [RemoveScratch(1)];
    RawStep(s0, es, CreateScratch(1, 1)); es := es + [CreateScratch(1, 1)];
    assert Raw(s0, es).value.fs == Taken(t, pid).fs;
    assert Raw(s0, es).value.writers == Taken(t, pid).writers;
  }

  /** Two threads of one process replacing one target: the first renames the second's half-written file. */
  lemma SharedScratchTears(t: Name, pid: nat) returns (es: seq<Event>)
    ensures var end := Raw(State({t}, EMPTY_FS, EMPTY_FS, map[]), es);
            && Settled(EMPTY_FS) && end.Some?
            && !Untouched(end.value, end.value.fs.dir, end.value.fs.data, t)
            && !HoldsOneWrite(end.value, end.value.fs.dir, end.value.fs.data, t)
  {
    var s0 := State({t}, EMPTY_FS, EMPTY_FS, map[]);
    es := ReachTaken(t, pid);
    RawStep(s0, es, WriteSome(1, 1)); es := es + [WriteSome(1, 1)];
    RawStep(s0, es, Replace(0)); es := es + [Replace(0)];
    assert Raw(s0, es).value.fs.data[1] == [3];
  }

  /** Calls that have ended stand in no later call's way. */
  lemma EndedCallsDoNotCount(s: State, e: Event)
    requires forall v :: v in s.writers ==> s.writers[v].pc.Done? || s.writers[v].pc.Failed?
    ensures Disciplined(s, e)
  {
  }

  /** One call on `t`, its scratch file holding `data` of which `disk` reached the disk. */
  function OneCallAt(t: Name, pid: nat, b: byte, mode: nat, data: seq<byte>, disk: seq<byte>, dirty: set<Inode>, pc: Pc): State {
    State({t}, EMPTY_FS,
          Fs(map[Scratch(t, pid) := File(0)], map[0 := data], map[0 := mode], map[], map[0 := disk], dirty),
          map[0 := Writer(t, pid, [b], mode, pc)])
  }

  lemma {:induction false} ReachWriting(t: Name, pid: nat, b: byte, mode: nat) returns (es: seq<Event>)
    ensures Run(State({t}, EMPTY_FS, EMPTY_FS, map[]), es) == Some(OneCallAt(t, pid, b, mode, [], [], {0}, Writing(0, 0)))
  {
    var s0 := State({t}, EMPTY_FS, EMPTY_FS, map[]);
    es := [];
    RunExtends(s0, es, Call(0, t, pid, [b], mode)); es := es + [Call(0, t, pid, [b], mode)];
    RunExtends(s0, es, RemoveScratch(0)); es := es + [RemoveScratch(0)];
    RunExtends(s0, es, CreateScratch(0, 0)); es := es + [CreateScratch(0, 0)];
    var end := OneCallAt(t, pid, b, mode, [], [], {0}, Writing(0, 0));
    assert Run(s0, es).value.fs == end.fs && Run(s0, es).value.writers == end.writers;
  }

  lemma {:induction false} ReachSynced(t: Name, pid: nat, b: byte, mode: nat) returns (es: seq<Event>)
    ensures Run(State({t}, EMPTY_FS, EMPTY_FS, map[]), es) == Some(OneCallAt(t, pid, b, mode, [b], [b], {}, Synced(0)))
  {
    var s0 := State({t}, EMPTY_FS, EMPTY_FS, map[]);
    es := ReachWriting(t, pid, b, mode);
    RunExtends(s0, es, WriteSome(0, 1)); es := es + [WriteSome(0, 1)];
    var filled, end := OneCallAt(t, pid, b, mode, [b], [], {0}, Writing(0, 1)), OneCallAt(t, pid, b, mode, [b], [b], {}, Synced(0));
    assert [] + [b][0..1] == [b];
    assert Run(s0, es).value.fs == filled.fs && Run(s0, es).value.writers == filled.writers;
    RunExtends(s0, es, SyncAll(0)); es := es + [SyncAll(0)];
    assert Run(s0, es).value.fs == end.fs && Run(s0, es).value.writers == end.writers;
  }

  /** The directory is not synced: a power loss can undo a call that has returned success. */
  lemma {:induction false} RenameCanBeLost(t: Name, pid: nat, b: byte, mode: nat) returns (es: seq<Event>)
    ensures var end := Run(State({t}, EMPTY_FS, EMPTY_FS, map[]), es);
            end.Some? && 0 in end.value.writers && end.value.writers[0].pc.Done? && t !in end.value.fs.dir
  {
    var s0 := State({t}, EMPTY_FS, EMPTY_FS, map[]);
    es := ReachSynced(t, pid, b, mode);
    RunExtends(s0, es, Replace(0)); es := es + [Replace(0)];
    RunExtends(s0, es, Crash); es := es + [Crash];
  }

  /** If the name reached the disk first, the power loss leaves the target with all the bytes. */
  lemma {:induction false} RenameCanLast(t: Name, pid: nat, b: byte, mode: nat) returns (es: seq<Event>)
    ensures var end := Run(State({t}, EMPTY_FS, EMPTY_FS, map[]), es);
            end.Some? && |es| > 0 && es[|es| - 1] == Crash && HoldsOneWrite(end.value, end.value.fs.dir, end.value.fs.data, t)
  {
    var s0 := State({t}, EMPTY_FS, EMPTY_FS, map[]);
    es := ReachSynced(t, pid, b, mode);
    RunExtends(s0, es, Replace(0)); es := es + [Replace(0)];
    RunExtends(s0, es, FlushName(t)); es := es + [FlushName(t)];
    RunExtends(s0, es, Crash); es := es + [Crash];
    assert 0 in Run(s0, es).value.writers;
  }
}
