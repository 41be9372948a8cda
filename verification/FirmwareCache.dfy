/** The on-disk firmware cache (controller/em_firmware.py): readers, writers and prunings as tasks that take
    turns at every file operation and may stop for good at any of them. */
module FirmwareCache {
  import opened Options
  import opened Pcm
  import opened Recency

  type Bytes = seq<Byte>

  // ---- Names

  /** A version's binary, its digest beside it, and where the binary lands first. */
  datatype Name = Payload(v: string) | Digest(v: string) | Part(v: string)

  predicate TagChar(c: char) {
    'A' <= c <= 'Z' || 'a' <= c <= 'z' || '0' <= c <= '9'
  }

  predicate SafeVersion(v: string) {
    && 1 <= |v| <= 64 && TagChar(v[0])
    && forall i :: 1 <= i < |v| ==> TagChar(v[i]) || v[i] in "_.+-"
  }

  function Path(n: Name): string {
    match n
    case Payload(v) => "server-" + v
    case Digest(v) => "server-" + v + ".md5"
    case Part(v) => "server-" + v + ".part"
  }

  lemma SamePrefix(a: string, b: string)
    requires "server-" + a == "server-" + b
    ensures a == b
  {
    assert a == ("server-" + a)[7..] && b == ("server-" + b)[7..];
  }

  lemma SameSuffix(a: string, b: string, ext: string)
    requires a + ext == b + ext
    ensures a == b
  {
    assert |a| == |b|;
    assert a == (a + ext)[..|a|] && b == (b + ext)[..|b|];
  }

  /** The tag of one of these names is the other's tag and extension. */
  predicate Aliases(n: Name, m: Name) {
    n.Payload? && ((m.Digest? && n.v == m.v + ".md5") || (m.Part? && n.v == m.v + ".part"))
  }

  lemma ExtensionsDiffer(a: string, b: string)
    ensures a + ".md5" != b + ".part"
  {
    var x, y := a + ".md5", b + ".part";
    assert x[|x| - 1] == '5' && y[|y| - 1] == 't';
  }

  lemma AliasedPath(n: Name, m: Name)
    requires Aliases(n, m)
    ensures Path(n) == Path(m)
  {
    assert "server-" + (m.v + ".md5") == "server-" + m.v + ".md5";
    assert "server-" + (m.v + ".part") == "server-" + m.v + ".part";
  }

  lemma PayloadPath(n: Name, m: Name)
    requires n.Payload? && Path(n) == Path(m)
    ensures n == m || Aliases(n, m)
  {
    match m
    case Payload(v) => SamePrefix(n.v, v);
    case Digest(v) =>
      assert "server-" + (v + ".md5") == "server-" + v + ".md5";
      SamePrefix(n.v, v + ".md5");
    case Part(v) =>
      assert "server-" + (v + ".part") == "server-" + v + ".part";
      SamePrefix(n.v, v + ".part");
  }

  /** Two of the cache's names are one file exactly when they are one name, or when one version's tag is another's
      with ".md5" or ".part" appended. The tag pattern allows such tags. */
  lemma NamesAreFiles(n: Name, m: Name)
    ensures Path(n) == Path(m) <==> n == m || Aliases(n, m) || Aliases(m, n)
  {
    if Aliases(n, m) {
      AliasedPath(n, m);
    } else if Aliases(m, n) {
      AliasedPath(m, n);
    }
    if Path(n) == Path(m) {
      if n.Payload? {
        PayloadPath(n, m);
      } else if m.Payload? {
        PayloadPath(m, n);
      } else {
        SidecarPath(n, m);
      }
    }
  }

  lemma SidecarPath(n: Name, m: Name)
    requires !n.Payload? && !m.Payload? && Path(n) == Path(m)
    ensures n == m
  {
    var a, b := "server-" + n.v, "server-" + m.v;
    ExtensionsDiffer(a, b);
    ExtensionsDiffer(b, a);
    SameSuffix(a, b, if n.Digest? then ".md5" else ".part");
    SamePrefix(n.v, m.v);
  }

  // ---- Files

  /** Names lead to files; a file that is open stays writable whatever its name. */
  datatype Fs = Fs(names: map<string, nat>, files: map<nat, Bytes>, next: nat)

  ghost predicate ValidFs(fs: Fs) {
    && (forall n :: n in fs.names ==> fs.names[n] in fs.files)
    && (forall i :: i in fs.files ==> i < fs.next)
  }

  /** No two names lead to one file. */
  ghost predicate Unshared(fs: Fs) {
    forall n, m :: n in fs.names && m in fs.names && fs.names[n] == fs.names[m] ==> n == m
  }

  function Content(fs: Fs, n: string): Option<Bytes> {
    if n in fs.names && fs.names[n] in fs.files then Some(fs.files[fs.names[n]]) else None
  }

  /** open(name, "w"): empties the file there is, or makes a new one. */
  function Open(fs: Fs, n: string): (Fs, nat) {
    if n in fs.names then (fs.(files := fs.files[fs.names[n] := []]), fs.names[n])
    else (Fs(fs.names[n := fs.next], fs.files[fs.next := []], fs.next + 1), fs.next)
  }

  function Fill(fs: Fs, file: nat, content: Bytes): Fs {
    fs.(files := fs.files[file := content])
  }

  function Rename(fs: Fs, source: string, target: string): Fs
    requires source in fs.names
  {
    fs.(names := (fs.names - {source})[target := fs.names[source]])
  }

  function Unlink(fs: Fs, n: string): Fs {
    fs.(names := fs.names - {n})
  }

  // ---- Tasks

  /** The digest in use, and which file a name is. */
  datatype Layout = Layout(md5: Bytes -> Bytes, path: Name -> string)

  datatype WriterStep =
    | OpenPart
    | FillPart(file: nat)
    | OpenDigest
    | FillDigest(file: nat)
    | Promote
    | WriterDone

  datatype ReaderStep =
    | ReadDigest
    | ReadPayload(want: Bytes)
    | DropPayload
    | DropDigest
    | ReaderDone(result: Option<Bytes>)

  datatype PrunerStep = PrunePayload | PruneDigest | PrunerDone

  datatype Task =
    | Writer(v: string, data: Bytes, w: WriterStep)
    | Reader(v: string, r: ReaderStep)
    | Pruner(v: string, p: PrunerStep)

  /** A call with an unusable tag, or with nothing to write, returns at once. */
  function Called(t: Task): Task {
    match t
    case Writer(v, data, _) => Writer(v, data, if SafeVersion(v) && data != [] then OpenPart else WriterDone)
    case Reader(v, _) => Reader(v, if SafeVersion(v) then ReadDigest else ReaderDone(None))
    case Pruner(v, _) => Pruner(v, PrunePayload)
  }

  /** One step of a writer. Another writer may share the .part, so what a write leaves in it is whatever it is;
      the digest is one small write, which lands or does not. */
  function WriterMove(c: Layout, fs: Fs, t: Task, mixture: Bytes, more: bool): (Fs, Task)
    requires t.Writer?
  {
    match t.w
    case OpenPart =>
      var (fs1, file) := Open(fs, c.path(Part(t.v)));
      (fs1, t.(w := FillPart(file)))
    case FillPart(file) => (Fill(fs, file, mixture), if more then t else t.(w := OpenDigest))
    case OpenDigest =>
      var (fs1, file) := Open(fs, c.path(Digest(t.v)));
      (fs1, t.(w := FillDigest(file)))
    case FillDigest(file) => (Fill(fs, file, c.md5(t.data)), t.(w := Promote))
    case Promote =>
      (if c.path(Part(t.v)) in fs.names then Rename(fs, c.path(Part(t.v)), c.path(Payload(t.v))) else fs,
       t.(w := WriterDone))
    case WriterDone => (fs, t)
  }

  /** One step of a reader: the digest first, then the payload, which counts only if it matches; otherwise both
      are discarded. */
  function ReaderMove(c: Layout, fs: Fs, t: Task): (Fs, Task)
    requires t.Reader?
  {
    var payload, digest := c.path(Payload(t.v)), c.path(Digest(t.v));
    match t.r
    case ReadDigest =>
      (fs, t.(r := if Content(fs, payload).Some? && Content(fs, digest).Some?
                   then ReadPayload(Content(fs, digest).value) else ReaderDone(None)))
    case ReadPayload(want) =>
      (fs, t.(r := if Content(fs, payload).None? then ReaderDone(None)
                   else if want == [] || c.md5(Content(fs, payload).value) != want then DropPayload
                   else ReaderDone(Content(fs, payload))))
    case DropPayload => (Unlink(fs, payload), t.(r := DropDigest))
    case DropDigest => (Unlink(fs, digest), t.(r := ReaderDone(None)))
    case ReaderDone(_) => (fs, t)
  }

  function PrunerMove(c: Layout, fs: Fs, t: Task): (Fs, Task)
    requires t.Pruner?
  {
    match t.p
    case PrunePayload => (Unlink(fs, c.path(Payload(t.v))), t.(p := PruneDigest))
    case PruneDigest => (Unlink(fs, c.path(Digest(t.v))), t.(p := PrunerDone))
    case PrunerDone => (fs, t)
  }

  /** A writer whose operation fails removes the .part, whoever wrote it, and stops; a reader gives up, or goes on
      discarding. */
  function Fail(c: Layout, fs: Fs, t: Task): (Fs, Task) {
    if t.Writer? then (if t.w.WriterDone? then fs else Unlink(fs, c.path(Part(t.v))), t.(w := WriterDone))
    else if t.Reader? then (fs, t.(r := if t.r.DropPayload? then DropDigest
                                        else if t.r.ReaderDone? then t.r else ReaderDone(None)))
    else (fs, t.(p := PrunerDone))
  }

  // ---- The system

  /** The files, every task started so far, and which files have been digests of which version. */
  datatype System = System(fs: Fs, tasks: seq<Task>, digests: map<nat, string>)

  datatype Event =
    | Start(t: Task)
    | Go(k: nat, mixture: Bytes, more: bool)
    | Error(k: nat)

  function Move(c: Layout, fs: Fs, t: Task, mixture: Bytes, more: bool): (Fs, Task) {
    if t.Writer? then WriterMove(c, fs, t, mixture, more)
    else if t.Reader? then ReaderMove(c, fs, t)
    else PrunerMove(c, fs, t)
  }

  function Step(c: Layout, s: System, e: Event): System {
    match e
    case Start(t) => s.(tasks := s.tasks + [Called(t)])
    case Go(k, mixture, more) =>
      if k >= |s.tasks| then s
      else
        var t := s.tasks[k];
        var (fs1, t1) := Move(c, s.fs, t, mixture, more);
        System(fs1, s.tasks[k := t1],
               if t.Writer? && t.w.OpenDigest? then s.digests[t1.w.file := t.v] else s.digests)
    case Error(k) =>
      if k >= |s.tasks| then s
      else
        var (fs1, t1) := Fail(c, s.fs, s.tasks[k]);
        s.(fs := fs1, tasks := s.tasks[k := t1])
  }

  const EMPTY := System(Fs(map[], map[], 0), [], map[])

  function Run(c: Layout, events: seq<Event>): System {
    if |events| == 0 then EMPTY else Step(c, Run(c, events[..|events| - 1]), events[|events| - 1])
  }

  // ---- What every interleaving keeps

  /** Some writer was asked to cache these bytes for this version. */
  ghost predicate Asked(s: System, v: string, data: Bytes) {
    data != [] && exists k :: 0 <= k < |s.tasks| && s.tasks[k].Writer? && s.tasks[k].v == v && s.tasks[k].data == data
  }

  /** Nothing, or the digest of bytes some writer was given for this version. */
  ghost predicate GoodDigest(c: Layout, s: System, v: string, text: Bytes) {
    text == [] || exists data :: Asked(s, v, data) && text == c.md5(data)
  }

  /** No other file of these versions is a digest of one of them. */
  ghost predicate DigestsApart(c: Layout, tags: iset<string>) {
    forall n: Name, m: Name :: n.v in tags && m.v in tags && m.Digest? && c.path(n) == c.path(m) ==> n == m
  }

  /** A task in progress is about one of these versions. */
  ghost predicate About(tags: iset<string>, t: Task) {
    && (t.Writer? && !t.w.WriterDone? ==> t.v in tags && t.data != [])
    && (t.Reader? && !t.r.ReaderDone? ==> t.v in tags)
  }

  ghost predicate TaskOk(c: Layout, tags: iset<string>, s: System, t: Task) {
    && About(tags, t)
    && (t.Writer? && t.w.FillPart? ==> t.w.file in s.fs.files && t.w.file !in s.digests)
    && (t.Writer? && t.w.FillDigest? ==> t.w.file in s.digests && s.digests[t.w.file] == t.v)
    && (t.Reader? && t.r.ReadPayload? ==> GoodDigest(c, s, t.v, t.r.want))
    && (t.Reader? && t.r.ReaderDone? && t.r.result.Some? ==> Asked(s, t.v, t.r.result.value))
  }

  /** A version's digest file is one of its digests; its other files are no digests. */
  ghost predicate NameOk(c: Layout, s: System, n: Name) {
    c.path(n) in s.fs.names ==>
      if n.Digest? then s.fs.names[c.path(n)] in s.digests && s.digests[s.fs.names[c.path(n)]] == n.v
      else s.fs.names[c.path(n)] !in s.digests
  }

  ghost predicate NamesOk(c: Layout, tags: iset<string>, s: System) {
    ValidFs(s.fs) && forall n: Name :: n.v in tags ==> NameOk(c, s, n)
  }

  /** Files that are digests of a version hold only its good digests, and no payload or .part is one of them. */
  ghost predicate FilesOk(c: Layout, tags: iset<string>, s: System) {
    && NamesOk(c, tags, s)
    && (forall i :: i in s.digests ==> i in s.fs.files && GoodDigest(c, s, s.digests[i], s.fs.files[i]))
  }

  ghost predicate Inv(c: Layout, tags: iset<string>, s: System) {
    FilesOk(c, tags, s) && forall k :: 0 <= k < |s.tasks| ==> TaskOk(c, tags, s, s.tasks[k])
  }

  /** Two different binaries have different digests, and a digest is not empty. */
  ghost predicate Collisionless(md5: Bytes -> Bytes) {
    && (forall a, b :: md5(a) == md5(b) ==> a == b)
    && (forall a :: md5(a) != [])
  }

  /** The same tasks, further on or more of them, and no digest file forgotten. */
  ghost predicate Later(s: System, t: System) {
    && |s.tasks| <= |t.tasks|
    && (forall k :: 0 <= k < |s.tasks| ==> SameTask(s.tasks[k], t.tasks[k]))
    && (forall i :: i in s.digests ==> i in t.digests && t.digests[i] == s.digests[i])
  }

  predicate SameTask(a: Task, b: Task) {
    a.v == b.v && a.Writer? == b.Writer? && (a.Writer? ==> a.data == b.data)
  }

  lemma AskedStays(s: System, t: System, v: string, data: Bytes)
    requires Later(s, t) && Asked(s, v, data)
    ensures Asked(t, v, data)
  {
    var k :| 0 <= k < |s.tasks| && s.tasks[k].Writer? && s.tasks[k].v == v && s.tasks[k].data == data;
    assert SameTask(s.tasks[k], t.tasks[k]);
  }

  lemma GoodStays(c: Layout, s: System, t: System, v: string, text: Bytes)
    requires Later(s, t) && GoodDigest(c, s, v, text)
    ensures GoodDigest(c, t, v, text)
  {
    if text != [] {
      var data :| Asked(s, v, data) && text == c.md5(data);
      AskedStays(s, t, v, data);
    }
  }

  /** What a change of files must leave alone for the other tasks. */
  ghost predicate Compatible(s: System, t: System) {
    && Later(s, t)
    && (forall i :: i in s.fs.files ==> i in t.fs.files)
    && (forall i :: i in s.fs.files && i !in s.digests ==> i !in t.digests)
  }

  lemma TaskStays(c: Layout, tags: iset<string>, s: System, t: System, task: Task)
    requires Compatible(s, t) && TaskOk(c, tags, s, task)
    ensures TaskOk(c, tags, t, task)
  {
    if task.Reader? && task.r.ReadPayload? {
      GoodStays(c, s, t, task.v, task.r.want);
    }
    if task.Reader? && task.r.ReaderDone? && task.r.result.Some? {
      AskedStays(s, t, task.v, task.r.result.value);
    }
  }

  /** A digest file is as good later as now. */
  lemma DigestStays(c: Layout, tags: iset<string>, s: System, t: System, i: nat)
    requires Later(s, t) && FilesOk(c, tags, s) && i in s.digests && i in t.fs.files && t.fs.files[i] == s.fs.files[i]
    ensures GoodDigest(c, t, t.digests[i], t.fs.files[i])
  {
    GoodStays(c, s, t, s.digests[i], s.fs.files[i]);
  }

  lemma MoveKeepsTask(c: Layout, fs: Fs, t: Task, mixture: Bytes, more: bool)
    ensures SameTask(t, Move(c, fs, t, mixture, more).1) && SameTask(t, Fail(c, fs, t).1)
  {
  }

  lemma WriterCompatible(c: Layout, tags: iset<string>, s: System, k: nat, mixture: Bytes, more: bool)
    requires Inv(c, tags, s) && DigestsApart(c, tags) && k < |s.tasks| && s.tasks[k].Writer?
    ensures Compatible(s, Step(c, s, Go(k, mixture, more)))
  {
    var t := s.tasks[k];
    assert TaskOk(c, tags, s, t);
    MoveKeepsTask(c, s.fs, t, mixture, more);
    if t.w.OpenDigest? {
      assert NameOk(c, s, Digest(t.v));
    }
  }

  lemma WriterDigest(c: Layout, tags: iset<string>, s: System, k: nat, mixture: Bytes, more: bool, i: nat)
    requires Inv(c, tags, s) && DigestsApart(c, tags) && k < |s.tasks| && s.tasks[k].Writer?
    requires i in Step(c, s, Go(k, mixture, more)).digests
    ensures var t := Step(c, s, Go(k, mixture, more));
            i in t.fs.files && GoodDigest(c, t, t.digests[i], t.fs.files[i])
  {
    var t := Step(c, s, Go(k, mixture, more));
    var task := s.tasks[k];
    assert TaskOk(c, tags, s, task);
    WriterCompatible(c, tags, s, k, mixture, more);
    if task.w.FillDigest? && i == task.w.file {
      assert Asked(t, task.v, task.data) by {
        assert t.tasks[k].data == task.data;
      }
    } else if task.w.OpenPart? {
      assert NameOk(c, s, Part(task.v));
      DigestStays(c, tags, s, t, i);
    } else if i in s.digests && t.fs.files[i] == s.fs.files[i] {
      DigestStays(c, tags, s, t, i);
    }
  }

  lemma WriterName(c: Layout, tags: iset<string>, s: System, k: nat, mixture: Bytes, more: bool, n: Name)
    requires Inv(c, tags, s) && DigestsApart(c, tags) && k < |s.tasks| && s.tasks[k].Writer? && n.v in tags
    ensures NameOk(c, Step(c, s, Go(k, mixture, more)), n)
  {
    var t := s.tasks[k];
    assert TaskOk(c, tags, s, t) && NameOk(c, s, n);
    if t.w.OpenPart? || t.w.Promote? {
      assert NameOk(c, s, Part(t.v));
      assert n.Digest? ==> c.path(n) != c.path(Part(t.v)) && c.path(n) != c.path(Payload(t.v));
    } else if t.w.OpenDigest? {
      assert NameOk(c, s, Digest(t.v));
      assert n == Digest(t.v) || c.path(n) != c.path(Digest(t.v));
    }
  }

  lemma WriterValid(c: Layout, tags: iset<string>, s: System, k: nat, mixture: Bytes, more: bool)
    requires Inv(c, tags, s) && k < |s.tasks| && s.tasks[k].Writer?
    ensures ValidFs(Step(c, s, Go(k, mixture, more)).fs)
  {
    assert TaskOk(c, tags, s, s.tasks[k]);
  }

  lemma WriterKeeps(c: Layout, tags: iset<string>, s: System, k: nat, mixture: Bytes, more: bool)
    requires Inv(c, tags, s) && DigestsApart(c, tags) && k < |s.tasks| && s.tasks[k].Writer?
    ensures var t := Step(c, s, Go(k, mixture, more));
            Compatible(s, t) && FilesOk(c, tags, t) && TaskOk(c, tags, t, t.tasks[k])
  {
    WriterCompatible(c, tags, s, k, mixture, more);
    WriterValid(c, tags, s, k, mixture, more);
    var t := Step(c, s, Go(k, mixture, more));
    forall n: Name | n.v in tags ensures NameOk(c, t, n) {
      WriterName(c, tags, s, k, mixture, more, n);
    }
    forall i | i in t.digests ensures i in t.fs.files && GoodDigest(c, t, t.digests[i], t.fs.files[i]) {
      WriterDigest(c, tags, s, k, mixture, more, i);
    }
    WriterTask(c, tags, s, k, mixture, more);
  }

  lemma WriterTask(c: Layout, tags: iset<string>, s: System, k: nat, mixture: Bytes, more: bool)
    requires Inv(c, tags, s) && k < |s.tasks| && s.tasks[k].Writer?
    ensures var t := Step(c, s, Go(k, mixture, more)); TaskOk(c, tags, t, t.tasks[k])
  {
    assert TaskOk(c, tags, s, s.tasks[k]);
    if s.tasks[k].w.OpenPart? {
      assert NameOk(c, s, Part(s.tasks[k].v));
    }
  }

  /** Readers, pruners and failures only ever remove names. */
  lemma RemovalKeeps(c: Layout, tags: iset<string>, s: System, t: System)
    requires Inv(c, tags, s) && Later(s, t) && t.digests == s.digests
    requires t.fs == s.fs.(names := t.fs.names)
    requires forall n :: n in t.fs.names ==> n in s.fs.names && t.fs.names[n] == s.fs.names[n]
    ensures Compatible(s, t) && FilesOk(c, tags, t)
  {
    forall n: Name | n.v in tags ensures NameOk(c, t, n) {
      assert NameOk(c, s, n);
    }
    forall i | i in t.digests ensures GoodDigest(c, t, t.digests[i], t.fs.files[i]) {
      DigestStays(c, tags, s, t, i);
    }
  }

  /** A read can only have returned bytes whose digest was on file. */
  lemma ReaderTask(c: Layout, tags: iset<string>, s: System, k: nat, mixture: Bytes, more: bool)
    requires Collisionless(c.md5) && Inv(c, tags, s) && k < |s.tasks| && s.tasks[k].Reader?
    requires Compatible(s, Step(c, s, Go(k, mixture, more)))
    ensures var t := Step(c, s, Go(k, mixture, more)); TaskOk(c, tags, t, t.tasks[k])
  {
    var t := Step(c, s, Go(k, mixture, more));
    var task := s.tasks[k];
    assert TaskOk(c, tags, s, task);
    if task.r.ReadDigest? && Content(s.fs, c.path(Digest(task.v))).Some? {
      var i := s.fs.names[c.path(Digest(task.v))];
      assert NameOk(c, s, Digest(task.v));
      GoodStays(c, s, t, task.v, s.fs.files[i]);
    } else if task.r.ReadPayload? && t.tasks[k].r.ReaderDone? && t.tasks[k].r.result.Some? {
      var data :| Asked(s, task.v, data) && task.r.want == c.md5(data);
      assert t.tasks[k].r.result.value == data;
      AskedStays(s, t, task.v, data);
    } else {
      TaskStays(c, tags, s, t, task);
    }
  }

  lemma GoKeeps(c: Layout, tags: iset<string>, s: System, k: nat, mixture: Bytes, more: bool)
    requires Collisionless(c.md5) && DigestsApart(c, tags) && Inv(c, tags, s) && k < |s.tasks|
    ensures var t := Step(c, s, Go(k, mixture, more));
            Compatible(s, t) && FilesOk(c, tags, t) && TaskOk(c, tags, t, t.tasks[k])
  {
    var t := Step(c, s, Go(k, mixture, more));
    if s.tasks[k].Writer? {
      WriterKeeps(c, tags, s, k, mixture, more);
    } else {
      MoveKeepsTask(c, s.fs, s.tasks[k], mixture, more);
      RemovalKeeps(c, tags, s, t);
      if s.tasks[k].Reader? {
        ReaderTask(c, tags, s, k, mixture, more);
      }
    }
  }

  lemma ErrorKeeps(c: Layout, tags: iset<string>, s: System, k: nat)
    requires Inv(c, tags, s) && k < |s.tasks|
    ensures var t := Step(c, s, Error(k)); Compatible(s, t) && FilesOk(c, tags, t) && TaskOk(c, tags, t, t.tasks[k])
  {
    var t := Step(c, s, Error(k));
    assert TaskOk(c, tags, s, s.tasks[k]);
    MoveKeepsTask(c, s.fs, s.tasks[k], [], false);
    RemovalKeeps(c, tags, s, t);
    TaskStays(c, tags, s, t, s.tasks[k]);
  }

  /** The calls made are about these versions. */
  predicate Concerns(e: Event, tags: iset<string>) {
    e.Start? && SafeVersion(e.t.v) ==> e.t.v in tags
  }

  lemma StepKeeps(c: Layout, tags: iset<string>, s: System, e: Event)
    requires Collisionless(c.md5) && DigestsApart(c, tags) && Inv(c, tags, s) && Concerns(e, tags)
    ensures Inv(c, tags, Step(c, s, e))
  {
    var t := Step(c, s, e);
    if e.Start? {
      RemovalKeeps(c, tags, s, t);
    } else if e.k < |s.tasks| {
      if e.Go? {
        GoKeeps(c, tags, s, e.k, e.mixture, e.more);
      } else {
        ErrorKeeps(c, tags, s, e.k);
      }
    }
    forall j | 0 <= j < |t.tasks| ensures TaskOk(c, tags, t, t.tasks[j]) {
      if j < |s.tasks| && t.tasks[j] == s.tasks[j] && Compatible(s, t) {
        TaskStays(c, tags, s, t, s.tasks[j]);
      }
    }
  }

  ghost predicate Within(events: seq<Event>, tags: iset<string>) {
    forall i :: 0 <= i < |events| ==> Concerns(events[i], tags)
  }

  lemma {:induction false} RunKeeps(c: Layout, tags: iset<string>, events: seq<Event>)
    requires Collisionless(c.md5) && DigestsApart(c, tags) && Within(events, tags)
    ensures Inv(c, tags, Run(c, events))
  {
    if |events| > 0 {
      RunKeeps(c, tags, events[..|events| - 1]);
      StepKeeps(c, tags, Run(c, events[..|events| - 1]), events[|events| - 1]);
    }
  }

  // ---- What a read returns

  /** Whatever a read has returned, some write was asked to cache for its version. */
  ghost predicate Faithful(s: System) {
    forall k :: 0 <= k < |s.tasks| && s.tasks[k].Reader? && s.tasks[k].r.ReaderDone? && s.tasks[k].r.result.Some? ==>
      Asked(s, s.tasks[k].v, s.tasks[k].r.result.value)
  }

  /** No usable tag among these is another's with ".md5" appended. */
  ghost predicate NoDigestTag(tags: iset<string>) {
    forall v :: v in tags && SafeVersion(v + ".md5") ==> v + ".md5" !in tags
  }

  function Real(md5: Bytes -> Bytes): Layout {
    Layout(md5, Path)
  }

  lemma TagsApart(md5: Bytes -> Bytes, tags: iset<string>)
    requires NoDigestTag(tags)
    ensures DigestsApart(Real(md5), iset v | v in tags && SafeVersion(v))
  {
    forall n: Name, m: Name | SafeVersion(n.v) && SafeVersion(m.v) && n.v in tags && m.v in tags
                              && m.Digest? && Path(n) == Path(m)
      ensures n == m
    {
      NamesAreFiles(n, m);
    }
  }

  // ---- Tasks left alone

  /** What every run keeps, however names coincide: a name has one file of its own, and open files stay. */
  ghost predicate Sound(s: System) {
    && ValidFs(s.fs) && Unshared(s.fs)
    && forall k :: 0 <= k < |s.tasks| ==> HandleOk(s, s.tasks[k])
  }

  ghost predicate HandleOk(s: System, t: Task) {
    t.Writer? && (t.w.FillPart? || t.w.FillDigest?) ==> t.w.file in s.fs.files
  }

  lemma StepSound(c: Layout, s: System, e: Event)
    requires Sound(s)
    ensures Sound(Step(c, s, e))
  {
    var t := Step(c, s, e);
    if !e.Start? && e.k < |s.tasks| {
      assert HandleOk(s, s.tasks[e.k]);
    }
    forall k | 0 <= k < |t.tasks| ensures HandleOk(t, t.tasks[k]) {
      assert k < |s.tasks| ==> HandleOk(s, s.tasks[k]);
    }
  }

  lemma {:induction false} RunSound(c: Layout, events: seq<Event>)
    ensures Sound(Run(c, events))
  {
    if |events| > 0 {
      RunSound(c, events[..|events| - 1]);
      StepSound(c, Run(c, events[..|events| - 1]), events[|events| - 1]);
    }
  }

  /** One undisturbed turn of task k. */
  function Turn(c: Layout, s: System, k: nat, data: Bytes): System {
    Step(c, s, Go(k, data, false))
  }

  /** One more call, and n turns of what it starts. */
  function Call(c: Layout, s: System, t: Task, data: Bytes, n: nat): System {
    if n == 0 then Step(c, s, Start(t)) else Turn(c, Call(c, s, t, data, n - 1), |s.tasks|, data)
  }

  lemma CallNext(c: Layout, s: System, t: Task, data: Bytes, n: nat)
    ensures Call(c, s, t, data, n + 1) == Turn(c, Call(c, s, t, data, n), |s.tasks|, data)
  {
  }

  /** A call made now and left alone. */
  function Written(c: Layout, s: System, v: string, data: Bytes): System {
    Call(c, s, Writer(v, data, OpenPart), data, 5)
  }

  function ReadBy(c: Layout, s: System, v: string): System {
    Call(c, s, Reader(v, ReadDigest), [], 2)
  }

  ghost predicate OwnFiles(c: Layout, v: string) {
    && c.path(Payload(v)) != c.path(Digest(v)) && c.path(Payload(v)) != c.path(Part(v))
    && c.path(Digest(v)) != c.path(Part(v))
  }

  /** Other names keep their contents, and so do other tasks. */
  ghost predicate Beside(c: Layout, s: System, t: System, v: string) {
    && (forall n :: n != c.path(Payload(v)) && n != c.path(Digest(v)) && n != c.path(Part(v)) ==>
          Content(t.fs, n) == Content(s.fs, n))
    && |t.tasks| == |s.tasks| + 1 && t.tasks[..|s.tasks|] == s.tasks
  }

  lemma PartOpened(c: Layout, s: System, v: string, data: Bytes)
    requires Sound(s) && SafeVersion(v) && data != []
    ensures var k := |s.tasks|;
            var t := Call(c, s, Writer(v, data, OpenPart), data, 1);
            && Sound(t) && Beside(c, s, t, v) && t.tasks[k].Writer? && t.tasks[k].w.FillPart?
            && t.tasks[k] == Writer(v, data, FillPart(t.tasks[k].w.file))
            && c.path(Part(v)) in t.fs.names && t.fs.names[c.path(Part(v))] == t.tasks[k].w.file
  {
    var start := Start(Writer(v, data, OpenPart));
    var s0 := Step(c, s, start);
    assert s0.fs == s.fs && s0.tasks == s.tasks + [Writer(v, data, OpenPart)];
    CallNext(c, s, Writer(v, data, OpenPart), data, 0);
    StepSound(c, s, start);
    StepSound(c, s0, Go(|s.tasks|, data, false));
  }

  lemma PartFilled(c: Layout, s: System, v: string, data: Bytes)
    requires Sound(s) && SafeVersion(v) && data != []
    ensures var t := Call(c, s, Writer(v, data, OpenPart), data, 2);
            && Sound(t) && Beside(c, s, t, v) && t.tasks[|s.tasks|] == Writer(v, data, OpenDigest)
            && Content(t.fs, c.path(Part(v))) == Some(data)
  {
    PartOpened(c, s, v, data);
    CallNext(c, s, Writer(v, data, OpenPart), data, 1);
    StepSound(c, Call(c, s, Writer(v, data, OpenPart), data, 1), Go(|s.tasks|, data, false));
  }

  lemma DigestFilled(c: Layout, s: System, k: nat, v: string, data: Bytes)
    requires Sound(s) && OwnFiles(c, v) && k < |s.tasks| && s.tasks[k] == Writer(v, data, OpenDigest)
    requires Content(s.fs, c.path(Part(v))) == Some(data)
    ensures var t := Turn(c, Turn(c, s, k, data), k, data);
            && Sound(t) && t.tasks == s.tasks[k := Writer(v, data, Promote)]
            && Content(t.fs, c.path(Digest(v))) == Some(c.md5(data))
            && forall n :: n != c.path(Digest(v)) ==> Content(t.fs, n) == Content(s.fs, n)
  {
    var s1 := Turn(c, s, k, data);
    StepSound(c, s, Go(k, data, false));
    StepSound(c, s1, Go(k, data, false));
    assert c.path(Digest(v)) in s1.fs.names && s1.fs.names[c.path(Digest(v))] == s1.tasks[k].w.file;
  }

  /** A write left alone puts the bytes and their digest in place and touches nothing else. */
  lemma WriteAlone(c: Layout, s: System, v: string, data: Bytes)
    requires Sound(s) && OwnFiles(c, v) && SafeVersion(v) && data != []
    ensures var t := Written(c, s, v, data);
            && Sound(t) && Beside(c, s, t, v) && t.tasks[|s.tasks|] == Writer(v, data, WriterDone)
            && Content(t.fs, c.path(Payload(v))) == Some(data) && Content(t.fs, c.path(Digest(v))) == Some(c.md5(data))
  {
    var k := |s.tasks|;
    PartFilled(c, s, v, data);
    var writer := Writer(v, data, OpenPart);
    var s2, s4 := Call(c, s, writer, data, 2), Call(c, s, writer, data, 4);
    CallNext(c, s, writer, data, 2);
    CallNext(c, s, writer, data, 3);
    CallNext(c, s, writer, data, 4);
    DigestFilled(c, s2, k, v, data);
    StepSound(c, s4, Go(k, data, false));
  }

  lemma ReadAlone(c: Layout, s: System, v: string, data: Bytes)
    requires Collisionless(c.md5) && SafeVersion(v)
    requires Content(s.fs, c.path(Payload(v))) == Some(data) && Content(s.fs, c.path(Digest(v))) == Some(c.md5(data))
    ensures ReadBy(c, s, v).tasks == s.tasks + [Reader(v, ReaderDone(Some(data)))]
  {
    var reader := Reader(v, ReadDigest);
    CallNext(c, s, reader, [], 0);
    var s1 := Call(c, s, reader, [], 1);
    assert s1.tasks == s.tasks + [Reader(v, ReadPayload(c.md5(data)))];
    CallNext(c, s, reader, [], 1);
  }

  lemma OwnFilesReal(md5: Bytes -> Bytes, v: string)
    ensures OwnFiles(Real(md5), v)
  {
    NamesAreFiles(Payload(v), Digest(v));
    NamesAreFiles(Payload(v), Part(v));
    NamesAreFiles(Digest(v), Part(v));
  }

  /** After any run at all, and whatever tags are in use: a write left alone, then a read left alone, gives the
      bytes back. */
  lemma WriteThenRead(md5: Bytes -> Bytes, events: seq<Event>, v: string, data: Bytes)
    requires Collisionless(md5) && SafeVersion(v) && data != []
    ensures var c := Real(md5);
            var s := Written(c, Run(c, events), v, data);
            ReadBy(c, s, v).tasks == s.tasks + [Reader(v, ReaderDone(Some(data)))]
  {
    var c := Real(md5);
    RunSound(c, events);
    OwnFilesReal(md5, v);
    WriteAlone(c, Run(c, events), v, data);
    ReadAlone(c, Written(c, Run(c, events), v, data), v, data);
  }

  // ---- Tasks stopped, failed or turned away

  /** A write stopped after n turns: the binary in place is the old one until the last turn puts the new one there
      whole, and the digest is written before that. */
  lemma StoppedWrite(c: Layout, s: System, v: string, data: Bytes, n: nat)
    requires Sound(s) && OwnFiles(c, v) && SafeVersion(v) && data != [] && n <= 5
    ensures var t := Call(c, s, Writer(v, data, OpenPart), data, n);
            && Sound(t) && Beside(c, s, t, v)
            && Content(t.fs, c.path(Payload(v))) == (if n < 5 then Content(s.fs, c.path(Payload(v))) else Some(data))
            && Content(t.fs, c.path(Digest(v))) == (if n < 3 then Content(s.fs, c.path(Digest(v)))
                                                    else if n == 3 then Some([]) else Some(c.md5(data)))
  {
    if n == 0 {
      StepSound(c, s, Start(Writer(v, data, OpenPart)));
    } else if n == 1 {
      PartOpened(c, s, v, data);
      OpenedKeeps(c, s, v, data);
    } else if n == 2 {
      PartFilled(c, s, v, data);
      FilledKeeps(c, s, v, data);
    } else if n == 5 {
      WriteAlone(c, s, v, data);
    } else if n == 3 {
      DigestOpened(c, s, v, data);
    } else {
      DigestWritten(c, s, v, data);
    }
  }

  lemma DigestOpened(c: Layout, s: System, v: string, data: Bytes)
    requires Sound(s) && OwnFiles(c, v) && SafeVersion(v) && data != []
    ensures var t := Call(c, s, Writer(v, data, OpenPart), data, 3);
            && Sound(t) && Beside(c, s, t, v)
            && Content(t.fs, c.path(Payload(v))) == Content(s.fs, c.path(Payload(v)))
            && Content(t.fs, c.path(Digest(v))) == Some([])
  {
    PartFilled(c, s, v, data);
    FilledKeeps(c, s, v, data);
    CallNext(c, s, Writer(v, data, OpenPart), data, 2);
    StepSound(c, Call(c, s, Writer(v, data, OpenPart), data, 2), Go(|s.tasks|, data, false));
  }

  lemma DigestWritten(c: Layout, s: System, v: string, data: Bytes)
    requires Sound(s) && OwnFiles(c, v) && SafeVersion(v) && data != []
    ensures var t := Call(c, s, Writer(v, data, OpenPart), data, 4);
            && Sound(t) && Beside(c, s, t, v)
            && Content(t.fs, c.path(Payload(v))) == Content(s.fs, c.path(Payload(v)))
            && Content(t.fs, c.path(Digest(v))) == Some(c.md5(data))
  {
    PartFilled(c, s, v, data);
    FilledKeeps(c, s, v, data);
    CallNext(c, s, Writer(v, data, OpenPart), data, 2);
    CallNext(c, s, Writer(v, data, OpenPart), data, 3);
    DigestFilled(c, Call(c, s, Writer(v, data, OpenPart), data, 2), |s.tasks|, v, data);
  }

  lemma OpenedKeeps(c: Layout, s: System, v: string, data: Bytes)
    requires Sound(s) && OwnFiles(c, v) && SafeVersion(v) && data != []
    ensures var t := Call(c, s, Writer(v, data, OpenPart), data, 1);
            && Content(t.fs, c.path(Payload(v))) == Content(s.fs, c.path(Payload(v)))
            && Content(t.fs, c.path(Digest(v))) == Content(s.fs, c.path(Digest(v)))
  {
    var s0 := Step(c, s, Start(Writer(v, data, OpenPart)));
    assert s0.fs == s.fs && s0.tasks == s.tasks + [Writer(v, data, OpenPart)];
    CallNext(c, s, Writer(v, data, OpenPart), data, 0);
  }

  lemma FilledKeeps(c: Layout, s: System, v: string, data: Bytes)
    requires Sound(s) && OwnFiles(c, v) && SafeVersion(v) && data != []
    ensures var t := Call(c, s, Writer(v, data, OpenPart), data, 2);
            && Content(t.fs, c.path(Payload(v))) == Content(s.fs, c.path(Payload(v)))
            && Content(t.fs, c.path(Digest(v))) == Content(s.fs, c.path(Digest(v)))
  {
    PartOpened(c, s, v, data);
    OpenedKeeps(c, s, v, data);
    CallNext(c, s, Writer(v, data, OpenPart), data, 1);
  }

  /** A release in place survives a write of the same version that stops before its digest is begun, and is not mistaken
      for the new one after that: a read then gives the old bytes back only if they are the new. */
  lemma ReadAfterStoppedWrite(md5: Bytes -> Bytes, events: seq<Event>, v: string, held: Bytes, data: Bytes, n: nat)
    requires Collisionless(md5) && SafeVersion(v) && data != [] && n <= 5
    requires var c := Real(md5); var s := Run(c, events);
             Content(s.fs, Path(Payload(v))) == Some(held) && Content(s.fs, Path(Digest(v))) == Some(md5(held))
    ensures var c := Real(md5);
            var t := Call(c, Run(c, events), Writer(v, data, OpenPart), data, n);
            Reads(c, t, v) == if n < 3 then Some(held) else if n == 3 then None
                              else if n == 4 && held != data then None else Some(data)
  {
    var c := Real(md5);
    var s := Run(c, events);
    RunSound(c, events);
    OwnFilesReal(md5, v);
    StoppedWrite(c, s, v, data, n);
    ReadsIs(c, Call(c, s, Writer(v, data, OpenPart), data, n), v);
  }

  /** What a read left alone returns. */
  function Reads(c: Layout, s: System, v: string): Option<Bytes> {
    var t := Call(c, s, Reader(v, ReadDigest), [], 4);
    if |t.tasks| > |s.tasks| && t.tasks[|s.tasks|].Reader? && t.tasks[|s.tasks|].r.ReaderDone?
    then t.tasks[|s.tasks|].r.result else None
  }

  /** The payload, exactly if its digest is on file and is no blank; a pair that disagrees is removed from the
      directory, and nothing else is. */
  lemma ReadsIs(c: Layout, s: System, v: string)
    requires Sound(s) && SafeVersion(v) && OwnFiles(c, v)
    ensures var payload, digest := Content(s.fs, c.path(Payload(v))), Content(s.fs, c.path(Digest(v)));
            var whole := payload.Some? && digest.Some? && digest.value != [] && c.md5(payload.value) == digest.value;
            var t := Call(c, s, Reader(v, ReadDigest), [], 4);
            && Reads(c, s, v) == (if whole then payload else None)
            && t.fs == if payload.Some? && digest.Some? && !whole
                       then Unlink(Unlink(s.fs, c.path(Payload(v))), c.path(Digest(v))) else s.fs
  {
    var reader := Reader(v, ReadDigest);
    var s0, s1 := Call(c, s, reader, [], 0), Call(c, s, reader, [], 1);
    var s2, s3 := Call(c, s, reader, [], 2), Call(c, s, reader, [], 3);
    CallNext(c, s, reader, [], 0);
    CallNext(c, s, reader, [], 1);
    CallNext(c, s, reader, [], 2);
    CallNext(c, s, reader, [], 3);
    assert s0.fs == s.fs && s0.tasks == s.tasks + [reader];
    assert s1.fs == s.fs && |s1.tasks| == |s.tasks| + 1;
  }

  /** A pruning left alone removes the binary and its digest, and nothing else. */
  lemma PruneAlone(c: Layout, s: System, v: string)
    ensures Call(c, s, Pruner(v, PrunePayload), [], 2).fs
         == Unlink(Unlink(s.fs, c.path(Payload(v))), c.path(Digest(v)))
  {
    var pruner := Pruner(v, PrunePayload);
    CallNext(c, s, pruner, [], 0);
    CallNext(c, s, pruner, [], 1);
    assert Call(c, s, pruner, [], 0).tasks == s.tasks + [pruner];
  }

  /** A writer that fails takes its .part away, and leaves binary and digest to be judged as they are. */
  lemma FailedWriter(c: Layout, s: System, k: nat)
    requires k < |s.tasks| && s.tasks[k].Writer? && !s.tasks[k].w.WriterDone?
    ensures var t := Step(c, s, Error(k));
            && t.tasks[k].w == WriterDone && Content(t.fs, c.path(Part(s.tasks[k].v))).None?
            && forall n :: n != c.path(Part(s.tasks[k].v)) ==> Content(t.fs, n) == Content(s.fs, n)
  {
  }

  /** A usable tag names files in the cache's own directory: no separator gets into a path. */
  lemma TagStaysInside(n: Name, i: nat)
    requires SafeVersion(n.v) && i < |Path(n)|
    ensures Path(n)[i] != '/' && Path(n)[0] == 's'
  {
    var tag := "server-" + n.v;
    assert forall k :: 7 <= k < |tag| ==> tag[k] == n.v[k - 7];
    assert i < |tag| ==> Path(n)[i] == tag[i];
    if i >= |tag| {
      match n
      case Payload(_) =>
      case Digest(_) => assert Path(n)[i] == ".md5"[i - |tag|];
      case Part(_) => assert Path(n)[i] == ".part"[i - |tag|];
    }
  }

  /** `u` is the tag whose binary is `v`'s digest; no other two of their files are one. */
  ghost predicate Colliding(c: Layout, v: string, u: string) {
    var payload, digest, part, digest2, part2 :=
      c.path(Payload(v)), c.path(Digest(v)), c.path(Part(v)), c.path(Digest(u)), c.path(Part(u));
    && c.path(Payload(u)) == digest
    && payload != digest && payload != part && payload != digest2 && payload != part2
    && digest != part && digest != digest2 && digest != part2
    && part != digest2 && part != part2 && digest2 != part2
  }

  /** Two writers share v's .part, and the first puts it in place just when the second has emptied it. */
  function Emptying(c: Layout, v: string, x: Bytes): System {
    var writer := Writer(v, x, OpenPart);
    Turn(c, Call(c, Call(c, EMPTY, writer, x, 4), writer, x, 1), 0, x)
  }

  lemma FirstWriter(c: Layout, v: string, u: string, x: Bytes)
    requires Colliding(c, v, u) && SafeVersion(v) && x != []
    ensures Call(c, EMPTY, Writer(v, x, OpenPart), x, 4) ==
            System(Fs(map[c.path(Part(v)) := 0, c.path(Digest(v)) := 1], map[0 := x, 1 := c.md5(x)], 2),
                   [Writer(v, x, Promote)], map[1 := v])
  {
    var part, digest, writer := c.path(Part(v)), c.path(Digest(v)), Writer(v, x, OpenPart);
    var s1, s2, s3 := Call(c, EMPTY, writer, x, 1), Call(c, EMPTY, writer, x, 2), Call(c, EMPTY, writer, x, 3);
    CallNext(c, EMPTY, writer, x, 0);
    assert s1 == System(Fs(map[part := 0], map[0 := []], 1), [Writer(v, x, FillPart(0))], map[]);
    CallNext(c, EMPTY, writer, x, 1);
    assert s2 == System(Fs(map[part := 0], map[0 := x], 1), [Writer(v, x, OpenDigest)], map[]);
    CallNext(c, EMPTY, writer, x, 2);
    assert s3 == System(Fs(map[part := 0, digest := 1], map[0 := x, 1 := []], 2),
                        [Writer(v, x, FillDigest(1))], map[1 := v]);
    CallNext(c, EMPTY, writer, x, 3);
  }

  lemma SecondWriter(c: Layout, v: string, u: string, x: Bytes)
    requires Colliding(c, v, u) && SafeVersion(v) && x != []
    ensures Call(c, Call(c, EMPTY, Writer(v, x, OpenPart), x, 4), Writer(v, x, OpenPart), x, 1) ==
            System(Fs(map[c.path(Part(v)) := 0, c.path(Digest(v)) := 1], map[0 := [], 1 := c.md5(x)], 2),
                   [Writer(v, x, Promote), Writer(v, x, FillPart(0))], map[1 := v])
  {
    FirstWriter(c, v, u, x);
    var s := Call(c, EMPTY, Writer(v, x, OpenPart), x, 4);
    assert Call(c, s, Writer(v, x, OpenPart), x, 0).tasks == [Writer(v, x, Promote), Writer(v, x, OpenPart)];
    CallNext(c, s, Writer(v, x, OpenPart), x, 0);
  }

  lemma EmptyingLeaves(c: Layout, v: string, u: string, x: Bytes)
    requires Colliding(c, v, u) && SafeVersion(v) && x != []
    ensures Content(Emptying(c, v, x).fs, c.path(Payload(v))) == Some([])
    ensures Emptying(c, v, x).tasks == [Writer(v, x, WriterDone), Writer(v, x, FillPart(0))]
  {
    SecondWriter(c, v, u, x);
  }

  lemma {:induction false} Extend(c: Layout, tags: iset<string>, events: seq<Event>, s: System, e: Event)
    returns (more: seq<Event>)
    requires Within(events, tags) && Run(c, events) == s && Concerns(e, tags)
    ensures Within(more, tags) && Run(c, more) == Step(c, s, e)
  {
    more := events + [e];
    assert more[..|events|] == events;
  }

  lemma {:induction false} ExtendCall(c: Layout, tags: iset<string>, events: seq<Event>, s: System, t: Task,
                                      data: Bytes, n: nat)
    returns (more: seq<Event>)
    requires Within(events, tags) && Run(c, events) == s && t.v in tags
    ensures Within(more, tags) && Run(c, more) == Call(c, s, t, data, n)
  {
    if n == 0 {
      more := Extend(c, tags, events, s, Start(t));
    } else {
      more := ExtendCall(c, tags, events, s, t, data, n - 1);
      more := Extend(c, tags, more, Call(c, s, t, data, n - 1), Go(|s.tasks|, data, false));
    }
  }

  lemma EmptyingRuns(c: Layout, tags: iset<string>, v: string, x: Bytes) returns (events: seq<Event>)
    requires v in tags
    ensures Within(events, tags) && Run(c, events) == Emptying(c, v, x)
  {
    var writer := Writer(v, x, OpenPart);
    var s := Call(c, EMPTY, writer, x, 4);
    events := ExtendCall(c, tags, [], EMPTY, writer, x, 4);
    events := ExtendCall(c, tags, events, s, writer, x, 1);
    events := Extend(c, tags, events, Call(c, s, writer, x, 1), Go(0, x, false));
  }

  /** When `u`'s binary is `v`'s digest, a read of `v` can return an empty binary nobody wrote: the one in place was
      emptied by a second writer, and `u` was given the digest of nothing. */
  lemma DigestTagBreaks(c: Layout, tags: iset<string>, v: string, u: string, x: Bytes) returns (events: seq<Event>)
    requires Collisionless(c.md5) && Colliding(c, v, u) && x != []
    requires SafeVersion(v) && SafeVersion(u) && v in tags && u in tags
    ensures Within(events, tags) && !Faithful(Run(c, events))
  {
    var s, d := Emptying(c, v, x), c.md5([]);
    events := EmptyingRuns(c, tags, v, x);
    RunSound(c, events);
    events := ExtendCall(c, tags, events, s, Writer(u, d, OpenPart), d, 5);
    var t := Written(c, s, u, d);
    EmptyingLeaves(c, v, u, x);
    WriteAlone(c, s, u, d);
    events := ExtendCall(c, tags, events, t, Reader(v, ReadDigest), [], 2);
    ReadAlone(c, t, v, []);
    assert ReadBy(c, t, v).tasks[3] == Reader(v, ReaderDone(Some([])));
  }

  lemma DigestTagCollides(md5: Bytes -> Bytes, v: string)
    ensures Colliding(Real(md5), v, v + ".md5")
  {
    var u := v + ".md5";
    NamesAreFiles(Payload(u), Digest(v));
    NamesAreFiles(Payload(v), Digest(v));
    NamesAreFiles(Payload(v), Part(v));
    NamesAreFiles(Payload(v), Digest(u));
    NamesAreFiles(Payload(v), Part(u));
    NamesAreFiles(Digest(v), Part(v));
    NamesAreFiles(Digest(v), Digest(u));
    NamesAreFiles(Digest(v), Part(u));
    NamesAreFiles(Part(v), Digest(u));
    NamesAreFiles(Part(v), Part(u));
    NamesAreFiles(Digest(u), Part(u));
  }

  /** Of the runs about a set of versions - any interleaving of writes, reads and prunings, each stopped or failed
      anywhere, with writers sharing a .part - every read returns nothing or exactly the bytes of some write for its
      version, if and only if no usable tag of the set is another with ".md5" appended. Tags ending in ".part" share
      files too, and do no harm. */
  lemma ReadsAreWrites(md5: Bytes -> Bytes, tags: iset<string>)
    requires Collisionless(md5)
    ensures NoDigestTag(tags) <==> forall events :: Within(events, tags) ==> Faithful(Run(Real(md5), events))
  {
    var c := Real(md5);
    if NoDigestTag(tags) {
      var safe := iset v | v in tags && SafeVersion(v);
      TagsApart(md5, tags);
      forall events | Within(events, tags) ensures Faithful(Run(c, events)) {
        assert Within(events, safe);
        RunKeeps(c, safe, events);
        var s := Run(c, events);
        forall k | 0 <= k < |s.tasks| ensures TaskOk(c, safe, s, s.tasks[k]) {
        }
      }
    } else {
      var v :| v in tags && SafeVersion(v + ".md5") && v + ".md5" in tags;
      ShorterTag(v);
      DigestTagCollides(md5, v);
      var events := DigestTagBreaks(c, tags, v, v + ".md5", [0]);
    }
  }

  lemma Dotted(v: string)
    ensures |v| == 0 ==> (v + ".md5")[0] == '.'
    ensures forall i :: 0 <= i < |v| ==> (v + ".md5")[i] == v[i]
  {
  }

  lemma ShorterTag(v: string)
    requires SafeVersion(v + ".md5")
    ensures SafeVersion(v)
  {
    Dotted(v);
  }

  // ---- The same operations, alone

  /** When what a name leads to was last written or read. */
  function Age(fs: Fs, mtimes: map<nat, nat>, p: string): nat {
    if p in fs.names && fs.names[p] in mtimes then mtimes[fs.names[p]] else 0
  }

  function Ages(fs: Fs, mtimes: map<nat, nat>): string -> nat {
    p => Age(fs, mtimes, p)
  }

  /** The ages once a binary has been written. */
  function WrittenAges(ages: string -> nat, payload: string, now: nat): string -> nat {
    p => if p == payload then now else ages(p)
  }

  predicate EndsWith(s: string, ext: string) {
    |ext| <= |s| && s[|s| - |ext|..] == ext
  }

  /** What a pruning takes for a binary, and so what it counts and may remove: nothing named like a sidecar, even if
      it is the binary of a version so tagged. */
  predicate Entry(p: string) {
    "server-" <= p && !EndsWith(p, ".md5") && !EndsWith(p, ".part")
  }

  /** A listing of the directory: every entry once. */
  ghost predicate Lists(order: seq<string>, fs: Fs) {
    Distinct(order) && forall p :: p in order <==> Entry(p) && p in fs.names
  }

  /** The two entries used most recently. */
  function Kept(order: seq<string>, ages: string -> nat): (r: seq<string>)
    ensures |r| == if |order| < 2 then |order| else 2
  {
    var sorted := Newest(order, ages);
    if |sorted| < 2 then sorted else sorted[..2]
  }

  /** An entry newer than all the others is kept. */
  lemma NewestIsKept(order: seq<string>, ages: string -> nat, p: string)
    requires p in order && forall x :: x in order && x != p ==> ages(x) < ages(p)
    ensures p in Kept(order, ages)
  {
    NewestFirst(order, ages, p);
    assert Kept(order, ages)[0] == p;
  }

  /** Whatever is dropped is no newer than what is kept. */
  lemma DroppedAreOlder(order: seq<string>, ages: string -> nat, kept: string, dropped: string)
    requires Distinct(order) && kept in Kept(order, ages) && dropped in order && dropped !in Kept(order, ages)
    ensures ages(dropped) <= ages(kept)
  {
    var sorted := Newest(order, ages);
    NewestSorts(order, ages);
    assert dropped in multiset(sorted);
    var i :| 0 <= i < |Kept(order, ages)| && Kept(order, ages)[i] == kept;
    var j :| 0 <= j < |sorted| && sorted[j] == dropped;
    assert sorted[i] == kept;
    assert forall k :: 0 <= k < |Kept(order, ages)| ==> Kept(order, ages)[k] == sorted[k];
    assert forall k :: 0 <= k < |Kept(order, ages)| ==> sorted[k] != dropped;
  }

  /** The entries past the first two. */
  function Drops(order: seq<string>, ages: string -> nat): seq<string> {
    var sorted := Newest(order, ages);
    if |sorted| < 2 then [] else sorted[2..]
  }

  lemma KeptOrDropped(order: seq<string>, ages: string -> nat, p: string)
    requires Distinct(order)
    ensures p in Drops(order, ages) <==> p in order && p !in Kept(order, ages)
  {
    var sorted := Newest(order, ages);
    NewestSorts(order, ages);
    SameElements(sorted, order);
    if |sorted| >= 2 {
      assert sorted == sorted[..2] + sorted[2..];
      assert forall k :: 0 <= k < |sorted[2..]| ==> sorted[2..][k] == sorted[k + 2];
    }
  }

  /** Each of these entries removed, with its digest. */
  function Pruned(fs: Fs, drops: seq<string>): Fs {
    if |drops| == 0 then fs
    else
      var last := drops[|drops| - 1];
      Unlink(Unlink(Pruned(fs, drops[..|drops| - 1]), last), last + ".md5")
  }

  ghost predicate Gone(drops: seq<string>, p: string) {
    exists i :: 0 <= i < |drops| && (p == drops[i] || p == drops[i] + ".md5")
  }

  lemma {:induction false} PrunedContent(fs: Fs, drops: seq<string>)
    ensures forall p :: Content(Pruned(fs, drops), p) == if Gone(drops, p) then None else Content(fs, p)
    ensures Pruned(fs, drops).files == fs.files && Pruned(fs, drops).next == fs.next
    ensures forall p :: p in Pruned(fs, drops).names <==> p in fs.names && !Gone(drops, p)
    ensures forall p :: p in Pruned(fs, drops).names ==> Pruned(fs, drops).names[p] == fs.names[p]
  {
    if |drops| > 0 {
      var init, last := drops[..|drops| - 1], drops[|drops| - 1];
      PrunedContent(fs, init);
      forall p ensures Gone(drops, p) <==> Gone(init, p) || p == last || p == last + ".md5" {
        GoneNext(drops, p);
      }
    }
  }

  lemma GoneNext(drops: seq<string>, p: string)
    requires |drops| > 0
    ensures var init, last := drops[..|drops| - 1], drops[|drops| - 1];
            Gone(drops, p) <==> Gone(init, p) || p == last || p == last + ".md5"
  {
    var init, last := drops[..|drops| - 1], drops[|drops| - 1];
    if Gone(init, p) {
      var i :| 0 <= i < |init| && (p == init[i] || p == init[i] + ".md5");
      assert drops[i] == init[i];
    }
    if Gone(drops, p) {
      var i :| 0 <= i < |drops| && (p == drops[i] || p == drops[i] + ".md5");
      assert i < |init| ==> init[i] == drops[i];
    }
  }

  lemma SidecarIsNoEntry(p: string)
    ensures EndsWith(p + ".md5", ".md5") && !Entry(p + ".md5") && !EndsWith(p + ".md5", ".part")
  {
    var q := p + ".md5";
    assert q[|q| - 4..] == ".md5" && q[|q| - 1] == '5';
  }

  /** Of entries dropped: an entry, like its digest, goes exactly when it is one of them, and no .part goes. */
  lemma GoneOf(drops: seq<string>, p: string)
    requires forall e :: e in drops ==> Entry(e)
    ensures Entry(p) ==> (Gone(drops, p) <==> p in drops) && (Gone(drops, p + ".md5") <==> p in drops)
    ensures EndsWith(p, ".part") ==> !Gone(drops, p)
  {
    forall i | 0 <= i < |drops|
      ensures Entry(drops[i]) && !Entry(drops[i] + ".md5") && !EndsWith(drops[i] + ".md5", ".part")
      ensures p + ".md5" == drops[i] + ".md5" ==> p == drops[i]
    {
      SidecarIsNoEntry(drops[i]);
      if p + ".md5" == drops[i] + ".md5" {
        SameSuffix(p, drops[i], ".md5");
      }
    }
    SidecarIsNoEntry(p);
    if p in drops {
      var i :| 0 <= i < |drops| && drops[i] == p;
      assert Gone(drops, p) && Gone(drops, p + ".md5");
    }
  }

  /** What is in the directory after bytes were put there for a version. */
  function PutContent(md5: Bytes -> Bytes, before: Fs, v: string, data: Bytes, p: string): Option<Bytes> {
    if p == Path(Payload(v)) then Some(data)
    else if p == Path(Digest(v)) then Some(md5(data))
    else if p == Path(Part(v)) then None
    else Content(before, p)
  }

  /** The ages a write's pruning goes by. */
  function AgesAfter(fs: Fs, mtimes: map<nat, nat>, v: string, now: nat): string -> nat {
    WrittenAges(Ages(fs, mtimes), Path(Payload(v)), now)
  }

  class Cache {
    const md5: Bytes -> Bytes
    var fs: Fs
    var mtimes: map<nat, nat>

    ghost predicate Valid()
      reads this
    {
      ValidFs(fs) && Unshared(fs)
    }

    constructor (md5: Bytes -> Bytes)
      ensures Valid() && this.md5 == md5 && fs == Fs(map[], map[], 0)
    {
      this.md5, this.fs, this.mtimes := md5, Fs(map[], map[], 0), map[];
    }

    method WriteFile(p: string, content: Bytes, now: nat)
      requires Valid()
      modifies this
      ensures Valid() && fs.names.Keys == old(fs).names.Keys + {p} && Content(fs, p) == Some(content)
      ensures Age(fs, mtimes, p) == now
      ensures forall q :: q != p ==> Content(fs, q) == Content(old(fs), q)
      ensures forall q :: q != p ==> Age(fs, mtimes, q) == Age(old(fs), old(mtimes), q)
    {
      var (emptied, file) := Open(fs, p);
      fs := Fill(emptied, file, content);
      mtimes := mtimes[file := now];
    }

    method Replace(source: string, target: string)
      requires Valid() && source in fs.names && source != target
      modifies this`fs
      ensures Valid() && fs.names.Keys == old(fs).names.Keys - {source} + {target}
      ensures Content(fs, target) == Content(old(fs), source) && Content(fs, source).None?
      ensures forall q :: q != source && q != target ==> Content(fs, q) == Content(old(fs), q)
      ensures Age(fs, mtimes, target) == Age(old(fs), mtimes, source)
      ensures forall q :: q != source && q != target ==> Age(fs, mtimes, q) == Age(old(fs), mtimes, q)
    {
      fs := Rename(fs, source, target);
    }

    /** Drop all but the two entries used most recently, with their digests. */
    method Prune(order: seq<string>)
      requires Valid() && Lists(order, fs)
      modifies this`fs
      ensures Valid() && fs == Pruned(old(fs), Drops(order, Ages(old(fs), mtimes)))
      ensures forall p :: Entry(p) ==> (p in fs.names <==> p in Kept(order, Ages(old(fs), mtimes)))
      ensures forall p :: Entry(p) && p in fs.names ==> Content(fs, p) == Content(old(fs), p)
      ensures forall p :: EndsWith(p, ".part") ==> Content(fs, p) == Content(old(fs), p)
    {
      var drops := Drops(order, Ages(fs, mtimes));
      for i := 0 to |drops|
        invariant fs == Pruned(old(fs), drops[..i])
      {
        assert drops[..i + 1][..i] == drops[..i];
        fs := Unlink(fs, drops[i]);
        fs := Unlink(fs, drops[i] + ".md5");
      }
      assert drops[..|drops|] == drops;
      PrunedContent(old(fs), drops);
      PruneLeaves(old(fs), order, Ages(old(fs), mtimes));
    }

    /** Payload under `.part` until its digest is written, then renamed into place. */
    method Put(v: string, data: Bytes, now: nat)
      requires Valid()
      modifies this
      ensures Valid() && forall p :: Content(fs, p) == PutContent(md5, old(fs), v, data, p)
      ensures fs.names.Keys == old(fs).names.Keys + {Path(Payload(v)), Path(Digest(v))} - {Path(Part(v))}
      ensures forall p :: Entry(p) ==> Age(fs, mtimes, p) == AgesAfter(old(fs), old(mtimes), v, now)(p)
    {
      OwnFilesReal(md5, v);
      SidecarsNoEntries(v);
      WriteBoth(Path(Part(v)), Path(Digest(v)), data, now);
      Replace(Path(Part(v)), Path(Payload(v)));
    }

    method WriteBoth(part: string, digest: string, data: Bytes, now: nat)
      requires Valid() && part != digest
      modifies this
      ensures Valid() && fs.names.Keys == old(fs).names.Keys + {part, digest}
      ensures Content(fs, part) == Some(data) && Content(fs, digest) == Some(md5(data)) && Age(fs, mtimes, part) == now
      ensures forall p :: p != digest && p != part ==> Content(fs, p) == Content(old(fs), p)
      ensures forall p :: p != digest && p != part ==> Age(fs, mtimes, p) == Age(old(fs), old(mtimes), p)
    {
      WriteFile(part, data, now);
      WriteFile(digest, md5(data), now);
    }

    /** Cache bytes under a tag, and prune: everything put there stands but the entries past the two used most
        recently and their digests. A version newer than all the others survives its own write. */
    method Write(v: string, data: Bytes, now: nat, order: seq<string>) returns (ok: bool)
      requires Valid()
      requires Distinct(order) && forall p :: p in order <==> Entry(p) && (p == Path(Payload(v)) || p in fs.names)
      modifies this
      ensures Valid() && ok == (SafeVersion(v) && data != [])
      ensures !ok ==> fs == old(fs)
      ensures ok ==>
                var drops := Drops(order, AgesAfter(old(fs), old(mtimes), v, now));
                forall p :: Content(fs, p) == if Gone(drops, p) then None else PutContent(md5, old(fs), v, data, p)
      ensures ok ==>
                forall p :: Entry(p) && p in fs.names ==> p in Kept(order, AgesAfter(old(fs), old(mtimes), v, now))
      ensures ok && Entry(Path(Payload(v)))
              && (forall p :: p in order && p != Path(Payload(v)) ==> Ages(old(fs), old(mtimes))(p) < now) ==>
                Content(fs, Path(Payload(v))) == Some(data) && Content(fs, Path(Digest(v))) == Some(md5(data))
    {
      if !SafeVersion(v) || data == [] {
        return false;
      }
      ghost var ages := AgesAfter(fs, mtimes, v, now);
      SidecarsNoEntries(v);
      Put(v, data, now);
      ghost var put := fs;
      NewestAgree(order, Ages(fs, mtimes), ages);
      Prune(order);
      assert fs == Pruned(put, Drops(order, ages));
      PruneLeaves(put, order, ages);
      if Path(Payload(v)) in order && forall p :: p in order && p != Path(Payload(v)) ==> ages(p) < now {
        NewestStays(order, ages, Path(Payload(v)));
      }
      ok := true;
    }

    /** The cached bytes, which are then the most recently used, or None with a mismatched entry discarded. */
    method Read(v: string, now: nat) returns (data: Option<Bytes>)
      requires Valid()
      modifies this
      ensures Valid()
      ensures data == if SafeVersion(v) && Intact(md5, old(fs), v) then Content(old(fs), Path(Payload(v))) else None
      ensures Content(old(fs), Path(Payload(v))).None? || Content(old(fs), Path(Digest(v))).None? ==> fs == old(fs)
      ensures data.Some? ==> fs == old(fs) && Age(fs, mtimes, Path(Payload(v))) == now
      ensures data.None? ==> mtimes == old(mtimes)
      ensures SafeVersion(v) && data.None? && Content(old(fs), Path(Payload(v))).Some?
              && Content(old(fs), Path(Digest(v))).Some? ==>
                forall p :: Content(fs, p) == if p == Path(Payload(v)) || p == Path(Digest(v)) then None
                                              else Content(old(fs), p)
    {
      var payload, digest := Path(Payload(v)), Path(Digest(v));
      if !SafeVersion(v) || Content(fs, payload).None? || Content(fs, digest).None? {
        return None;
      }
      var want, found := Content(fs, digest).value, Content(fs, payload).value;
      if want == [] || md5(found) != want {
        fs := Unlink(fs, payload);
        fs := Unlink(fs, digest);
        return None;
      }
      mtimes := mtimes[fs.names[payload] := now];
      data := Some(found);
    }
  }

  lemma SidecarsNoEntries(v: string)
    ensures !Entry(Path(Digest(v))) && !Entry(Path(Part(v)))
  {
    var digest, part := Path(Digest(v)), Path(Part(v));
    assert digest[|digest| - 4..] == ".md5";
    assert part[|part| - 5..] == ".part";
  }

  lemma KeptListed(order: seq<string>, ages: string -> nat, p: string)
    requires Distinct(order) && p in Kept(order, ages)
    ensures p in order
  {
    NewestSorts(order, ages);
    SameElements(Newest(order, ages), order);
  }

  /** After a pruning the entries left are those kept, and what is named like a .part is all there. */
  lemma PruneLeaves(fs: Fs, order: seq<string>, ages: string -> nat)
    requires Lists(order, fs)
    ensures var after := Pruned(fs, Drops(order, ages));
            && (forall p :: Content(after, p) == if Gone(Drops(order, ages), p) then None else Content(fs, p))
            && (forall p :: Entry(p) ==> (p in after.names <==> p in Kept(order, ages)))
            && (forall p :: Entry(p) && p in Kept(order, ages) ==> Content(after, p) == Content(fs, p))
            && (forall p :: EndsWith(p, ".part") ==> Content(after, p) == Content(fs, p))
  {
    var drops := Drops(order, ages);
    PrunedContent(fs, drops);
    forall p ensures p in drops <==> p in order && p !in Kept(order, ages) {
      KeptOrDropped(order, ages, p);
    }
    forall p ensures p in Kept(order, ages) ==> p in order {
      if p in Kept(order, ages) {
        KeptListed(order, ages, p);
      }
    }
    forall p ensures Entry(p) ==> (Gone(drops, p) <==> p in drops)
             ensures EndsWith(p, ".part") ==> !Gone(drops, p) {
      GoneOf(drops, p);
    }
  }

  /** Newer than all the other entries: it stays, and its digest. */
  lemma NewestStays(order: seq<string>, ages: string -> nat, payload: string)
    requires Distinct(order) && (forall p :: p in order ==> Entry(p))
    requires payload in order && forall p :: p in order && p != payload ==> ages(p) < ages(payload)
    ensures !Gone(Drops(order, ages), payload) && !Gone(Drops(order, ages), payload + ".md5")
  {
    var drops := Drops(order, ages);
    forall p ensures p in drops <==> p in order && p !in Kept(order, ages) {
      KeptOrDropped(order, ages, p);
    }
    NewestIsKept(order, ages, payload);
    GoneOf(drops, payload);
  }

  predicate Intact(md5: Bytes -> Bytes, fs: Fs, v: string) {
    && Content(fs, Path(Payload(v))).Some? && Content(fs, Path(Digest(v))).Some?
    && Content(fs, Path(Digest(v))).value != []
    && md5(Content(fs, Path(Payload(v))).value) == Content(fs, Path(Digest(v))).value
  }
}
