/** Backups of the configuration tree (internal/studio/data_archive.go): a tar stream
    in one gzip member, written under limits and read back under the same limits.

    The tar and gzip encodings are parameters; all that is assumed of them is that
    each undoes itself (Faithful). Reads may return any number of bytes at a time. */
module ConfigArchive {
  import opened Wrappers

  type Byte = b: int | 0 <= b < 256 witness 0
  type Bytes = seq<Byte>

  const MAX_CONTENT: nat := 0xC80_0000     // 200 MiB, also of the compressed output
  const MAX_EXPANDED: nat := 0x1080_0000   // 64 MiB more for headers and padding
  const MAX_ENTRIES: nat := 10000

  const BACKUPS := "backups"
  const WORKTREES := "worktrees"
  const CONFIG := "config.yaml"
  const PERMISSIONS := "browser-permissions.json"

  datatype Entry = Directory(name: string) | File(name: string, content: Bytes) | Link(name: string)

  datatype Parsed = Item(e: Entry, n: nat) | End(n: nat) | Bad

  datatype Codec = Codec(
    encode: Entry -> Bytes, end: Bytes, parse: Bytes -> Parsed,    // end: the end-of-archive blocks
    zip: Bytes -> Bytes, unzip: Bytes -> Option<(Bytes, Bytes)>,   // the member, what follows it
    clean: string -> string, validConfig: Bytes -> bool)

  /** No part of the path is empty, "." or "..". */
  ghost predicate ProperParts(rel: string) {
    forall i, j :: 0 <= i <= j <= |rel| && (i == 0 || rel[i - 1] == '/') && (j == |rel| || rel[j] == '/') ==>
      rel[i..j] !in {"", ".", ".."}
  }

  /** Paths as fs.WalkDir reports them, below its root. */
  ghost predicate WalkPath(rel: string) { rel != "" && rel[0] != '/' && rel[|rel| - 1] != '/' && ProperParts(rel) }

  predicate AllZero(s: Bytes) { forall i :: 0 <= i < |s| ==> s[i] == 0 }

  ghost predicate Faithful(c: Codec) {
    (forall e, rest :: c.parse(c.encode(e) + rest) == Item(e, |c.encode(e)|)) &&
    (forall e :: c.encode(e) != []) &&
    (forall rest :: c.parse(c.end + rest) == End(|c.end|)) && c.end != [] && AllZero(c.end) &&
    (forall s :: c.unzip(c.zip(s)) == Some((s, []))) &&
    (forall rel :: WalkPath(rel) ==> c.clean(rel) == rel && c.clean(rel + "/") == rel)
  }

  /** path.Base of such a path. */
  function Base(rel: string): string {
    if rel == "" then "" else if rel[|rel| - 1] == '/' then "" else Base(rel[..|rel| - 1]) + [rel[|rel| - 1]]
  }

  // ------------------------------------------------------------------ writing

  // A path as the walk meets it; copied: how much of the file was there to copy.
  datatype Seen =
    | Folder(rel: string, readable: bool)
    | Regular(rel: string, readable: bool, content: Bytes, copied: nat)
    | Special(rel: string)

  predicate Under(rel: string, dir: string) { rel == dir || dir + "/" <= rel }

  predicate Portable(rel: string) {
    !Under(rel, BACKUPS) && !Under(rel, WORKTREES) && Base(rel) !in {".gokin-write-probe", ".DS_Store", PERMISSIONS}
  }

  /** What the walk step contributes to the archive. */
  function EntryOf(w: Seen): Option<Entry> {
    if !Portable(w.rel) then None
    else
      match w
      case Folder(rel, readable) => if readable then Some(Directory(rel + "/")) else None
      case Regular(rel, readable, content, _) => if readable then Some(File(rel, content)) else None
      case Special(_) => None
  }

  function With(es: seq<Entry>, w: Seen): seq<Entry> {
    match EntryOf(w)
    case Some(e) => es + [e]
    case None => es
  }

  function Archived(walk: seq<Seen>): seq<Entry> {
    if walk == [] then [] else With(Archived(walk[..|walk| - 1]), walk[|walk| - 1])
  }

  function Content(es: seq<Entry>): nat {
    if es == [] then 0
    else Content(es[..|es| - 1]) + (if es[|es| - 1].File? then |es[|es| - 1].content| else 0)
  }

  function Files(es: seq<Entry>): nat {
    if es == [] then 0 else Files(es[..|es| - 1]) + (if es[|es| - 1].File? then 1 else 0)
  }

  function Encoded(c: Codec, es: seq<Entry>): Bytes {
    if es == [] then [] else Encoded(c, es[..|es| - 1]) + c.encode(es[|es| - 1])
  }

  function TarOf(c: Codec, es: seq<Entry>): Bytes { Encoded(c, es) + c.end }

  predicate Steady(w: Seen) { EntryOf(w).Some? && w.Regular? ==> w.copied == |w.content| }

  ghost predicate HasConfig(es: seq<Entry>) { exists e :: e in es && e.File? && e.name == CONFIG }

  /** The tree did not change while it was read. */
  predicate AllSteady(walk: seq<Seen>) { forall i :: 0 <= i < |walk| ==> Steady(walk[i]) }

  ghost predicate WithinLimits(c: Codec, es: seq<Entry>) {
    |es| <= MAX_ENTRIES && Content(es) <= MAX_CONTENT && |TarOf(c, es)| <= MAX_EXPANDED &&
    |c.zip(TarOf(c, es))| <= MAX_CONTENT
  }

  ghost predicate Writable(c: Codec, walk: seq<Seen>) {
    AllSteady(walk) && HasConfig(Archived(walk)) && WithinLimits(c, Archived(walk))
  }

  class BoundedWriter {
    var out: Bytes
    const max: nat

    constructor (max: nat)
      ensures out == [] && this.max == max
    {
      out := [];
      this.max := max;
    }

    method Write(p: Bytes) returns (ok: bool)
      modifies this
      ensures ok <==> |old(out)| + |p| <= max
      ensures out == if ok then old(out) + p else old(out)
    {
      if |p| > max - |out| {
        return false;
      }
      out := out + p;
      return true;
    }
  }

  lemma Appended(c: Codec, es: seq<Entry>, e: Entry)
    ensures Content(es + [e]) == Content(es) + (if e.File? then |e.content| else 0)
    ensures Files(es + [e]) == Files(es) + (if e.File? then 1 else 0)
    ensures Encoded(c, es + [e]) == Encoded(c, es) + c.encode(e)
    ensures HasConfig(es + [e]) <==> HasConfig(es) || (e.File? && e.name == CONFIG)
  {
  }

  /** The tar stream of an archive in the making, with its counters. */
  class TarWriter {
    const c: Codec
    const stream: BoundedWriter
    var entries: nat
    var content: nat
    var files: nat
    var hasConfig: bool
    ghost var es: seq<Entry>

    constructor (c: Codec)
      ensures Valid() && es == [] && this.c == c && fresh(stream)
    {
      this.c := c;
      stream := new BoundedWriter(MAX_EXPANDED);
      entries, content, files, hasConfig, es := 0, 0, 0, false, [];
    }

    ghost predicate Valid()
      reads this, stream
    {
      stream.max == MAX_EXPANDED && stream.out == Encoded(c, es) && Admits(c, es) &&
      entries == |es| && content == Content(es) && files == Files(es) && hasConfig == HasConfig(es)
    }

    /** Adds an entry of which `copied` bytes could be copied. */
    method Add(e: Entry, copied: nat) returns (ok: bool)
      requires Valid()
      modifies this, stream
      ensures ok ==> Valid() && es == old(es) + [e]
      ensures ok <==> Admits(c, old(es) + [e]) && (e.File? ==> copied == |e.content|)
    {
      Appended(c, es, e);
      if e.File? && |e.content| > MAX_CONTENT - content {
        return false;
      }
      if entries >= MAX_ENTRIES {
        return false;
      }
      ok := stream.Write(c.encode(e));
      if !ok {
        return false;
      }
      es := es + [e];
      entries := entries + 1;
      if e.File? {
        content := content + |e.content|;
        if copied != |e.content| {
          return false;
        }
        files := files + 1;
        hasConfig := hasConfig || e.name == CONFIG;
      }
    }
  }

  /** The limits that an unfinished archive must already keep. */
  ghost predicate Admits(c: Codec, es: seq<Entry>) {
    |es| <= MAX_ENTRIES && Content(es) <= MAX_CONTENT && |Encoded(c, es)| <= MAX_EXPANDED
  }

  /** Limits that a longer archive keeps, a shorter one kept. */
  lemma {:induction false} AdmitsEarlier(c: Codec, walk: seq<Seen>, i: nat)
    requires i <= |walk| && Admits(c, Archived(walk))
    ensures Admits(c, Archived(walk[..i]))
    decreases |walk|
  {
    if i == |walk| {
      assert walk[..i] == walk;
    } else {
      var init, last := walk[..|walk| - 1], EntryOf(walk[|walk| - 1]);
      assert init[..i] == walk[..i];
      if last.Some? { Appended(c, Archived(init), last.value); }
      AdmitsEarlier(c, init, i);
    }
  }

  lemma NextArchived(walk: seq<Seen>, i: nat)
    requires i < |walk|
    ensures Archived(walk[..i + 1]) == With(Archived(walk[..i]), walk[i])
  {
    assert walk[..i + 1][..i] == walk[..i] && walk[..i + 1][i] == walk[i];
  }

  lemma SteadyNext(walk: seq<Seen>, i: nat)
    requires i < |walk|
    ensures AllSteady(walk[..i + 1]) <==> AllSteady(walk[..i]) && Steady(walk[i])
    ensures AllSteady(walk) ==> Steady(walk[i])
  {
  }

  /** One call of the walk function: a portable, readable path becomes an entry. */
  method AddSeen(tar: TarWriter, w: Seen) returns (ok: bool)
    requires tar.Valid()
    modifies tar, tar.stream
    ensures ok <==> Steady(w) && Admits(tar.c, With(old(tar.es), w))
    ensures ok ==> tar.Valid() && tar.es == With(old(tar.es), w)
  {
    var e := EntryOf(w);
    if e.None? {
      return true;
    }
    ok := tar.Add(e.value, if w.Regular? then w.copied else 0);
  }

  method AddAll(tar: TarWriter, walk: seq<Seen>) returns (ok: bool)
    requires tar.Valid() && tar.es == []
    modifies tar, tar.stream
    ensures ok <==> AllSteady(walk) && Admits(tar.c, Archived(walk))
    ensures ok ==> tar.Valid() && tar.es == Archived(walk)
  {
    var i := 0;
    while i < |walk|
      invariant 0 <= i <= |walk| && tar.Valid() && tar.es == Archived(walk[..i])
      invariant AllSteady(walk[..i])
    {
      NextArchived(walk, i);
      SteadyNext(walk, i);
      var added := AddSeen(tar, walk[i]);
      if !added {
        if Admits(tar.c, Archived(walk)) { AdmitsEarlier(tar.c, walk, i + 1); }
        return false;
      }
      i := i + 1;
    }
    assert walk[..i] == walk;
    return true;
  }

  /** Closing the tar stream, then the gzip stream, into the bounded output. */
  method Finish(tar: TarWriter) returns (archive: Option<Bytes>)
    requires tar.Valid()
    modifies tar.stream
    ensures archive.Some? <==> HasConfig(tar.es) && WithinLimits(tar.c, tar.es)
    ensures archive.Some? ==> archive.value == tar.c.zip(TarOf(tar.c, tar.es))
  {
    if !tar.hasConfig {
      return None;
    }
    var ended := tar.stream.Write(tar.c.end);
    if !ended {
      return None;
    }
    var output := new BoundedWriter(MAX_CONTENT);
    var fits := output.Write(tar.c.zip(tar.stream.out));
    if !fits {
      return None;
    }
    return Some(output.out);
  }

  /** writeConfigArchiveWithLimits, with the reader's own limits. */
  method WriteArchive(c: Codec, walk: seq<Seen>) returns (archive: Option<Bytes>, files: nat)
    ensures archive.Some? <==> Writable(c, walk)
    ensures archive.Some? ==> archive.value == c.zip(TarOf(c, Archived(walk))) && files == Files(Archived(walk))
  {
    var tar := new TarWriter(c);
    var ok := AddAll(tar, walk);
    if !ok {
      return None, 0;
    }
    files := tar.files;
    archive := Finish(tar);
  }

  // ------------------------------------------------------------------ reading

  datatype Verdict =
    | Extracted(files: map<string, Bytes>, count: nat)
    | NotGzip | TarBroken | TooMuchExpanded | TooManyEntries | TooMuchContent | UnsafePath | HiddenData
    | TrailingMember | NoConfig | BadConfig

  predicate Unsafe(clean: string) { ".." <= clean || "/" <= clean }

  // What has been extracted so far.
  datatype Staged = Staged(files: map<string, Bytes>, count: nat, seen: nat, content: nat)

  /** The effect of one tar entry, or why the archive is refused. */
  function Extract(c: Codec, st: Staged, e: Entry): (Staged, Option<Verdict>) {
    var name := c.clean(e.name);
    var st1 := st.(seen := st.seen + 1);
    if st1.seen > MAX_ENTRIES then (st1, Some(TooManyEntries))
    else if Unsafe(name) then (st1, Some(UnsafePath))
    else if Base(name) == PERMISSIONS || !e.File? then (st1, None)
    else if st.content + |e.content| > MAX_CONTENT then (st1, Some(TooMuchContent))
    else
      (Staged(st.files[name := e.content], st.count + 1, st1.seen, st.content + |e.content|), None)
  }

  /** The decision once every entry is out and the stream has been drained. */
  function Conclude(c: Codec, st: Staged, rest: Bytes): Verdict {
    if rest != [] then TrailingMember
    else if CONFIG !in st.files then NoConfig
    else if !c.validConfig(st.files[CONFIG]) then BadConfig
    else Extracted(st.files, st.count)
  }

  /** Reading the tar stream from `at`: entries up to the end marker, then nothing but
      zeros, in all no more than the expanded limit. */
  ghost function Unpack(c: Codec, stream: Bytes, at: nat, st: Staged, rest: Bytes): Verdict
    requires at <= |stream|
    decreases |stream| - at
  {
    match c.parse(stream[at..])
    case Bad => TarBroken
    case End(n) =>
      if at + n > |stream| then TarBroken
      else if at + n > MAX_EXPANDED then TooMuchExpanded
      else if exists i :: at + n <= i < |stream| && i < MAX_EXPANDED && stream[i] != 0 then HiddenData
      else if |stream| > MAX_EXPANDED then TooMuchExpanded
      else Conclude(c, st, rest)
    case Item(e, n) =>
      if n == 0 || at + n > |stream| then TarBroken
      else if at + n > MAX_EXPANDED then TooMuchExpanded
      else
        var (st', refusal) := Extract(c, st, e);
        if refusal.Some? then refusal.value else Unpack(c, stream, at + n, st', rest)
  }

  const NOTHING := Staged(map[], 0, 0, 0)

  ghost function Verdicted(c: Codec, archive: Bytes): Verdict {
    match c.unzip(archive)
    case None => NotGzip
    case Some((stream, rest)) => Unpack(c, stream, 0, NOTHING, rest)
  }

  // What one Read call returned: bytes, the end, or more than the limit.
  datatype Got = Chunk(bytes: Bytes) | Eof | OverLimit

  /** boundedArchiveReader over a stream that hands out as much at a time as it likes. */
  class BoundedReader {
    const stream: Bytes
    const gives: nat -> nat
    const max: nat
    var at: nat
    var remaining: nat

    constructor (stream: Bytes, gives: nat -> nat, max: nat)
      ensures Valid() && at == 0 && this.stream == stream && this.max == max
    {
      this.stream, this.gives, this.max := stream, gives, max;
      at, remaining := 0, max;
    }

    ghost predicate Valid()
      reads this
    {
      at <= |stream| && at <= max && remaining == max - at
    }

    /** Up to `want` bytes. A stream of exactly `max` bytes still reaches its end,
        because a one-byte probe tells it from a longer one. */
    method Read(want: nat) returns (got: Got)
      requires Valid() && want > 0
      modifies this
      ensures Valid()
      ensures got.Chunk? ==> got.bytes != [] && |got.bytes| <= want && at == old(at) + |got.bytes| &&
                             got.bytes == stream[old(at)..at]
      ensures !got.Chunk? ==> at == old(at)
      ensures got.Eof? <==> old(at) == |stream|
      ensures got.OverLimit? <==> old(at) == max < |stream|
    {
      if remaining == 0 {
        if at < |stream| {
          return OverLimit;
        }
        return Eof;
      }
      if at == |stream| {
        return Eof;
      }
      var most := if want > remaining then remaining else want;
      most := if most > |stream| - at then |stream| - at else most;
      var n := gives(at);
      n := if n == 0 then 1 else if n > most then most else n;
      var bytes := stream[at..at + n];
      at := at + n;
      remaining := remaining - n;
      return Chunk(bytes);
    }

    /** The tar reader consuming the next `n` bytes. */
    method Consume(n: nat) returns (ok: bool)
      requires Valid() && at + n <= |stream|
      modifies this
      ensures Valid() && (ok <==> old(at) + n <= max)
      ensures ok ==> at == old(at) + n
    {
      var left := n;
      while left > 0
        invariant Valid() && 0 <= left <= n && at == old(at) + n - left
      {
        var got := Read(left);
        if !got.Chunk? {
          return false;
        }
        left := left - |got.bytes|;
      }
      return true;
    }

    /** The drain loop of validateGzipArchiveEnd. */
    method Drain() returns (hidden: bool, over: bool)
      requires Valid()
      modifies this
      ensures Valid()
      ensures hidden <==> exists i :: old(at) <= i < |stream| && i < max && stream[i] != 0
      ensures !hidden ==> (over <==> |stream| > max)
    {
      ghost var from := at;
      while true
        invariant Valid() && from <= at
        invariant forall i :: from <= i < at ==> stream[i] == 0
        decreases |stream| - at
      {
        ghost var before := at;
        var got := Read(0x8000);
        if !got.Chunk? {
          return false, got.OverLimit?;
        }
        var clean := AllZeroBytes(got.bytes);
        if !clean {
          var k: nat :| k < |got.bytes| && got.bytes[k] != 0;
          assert stream[before + k] == got.bytes[k];
          return true, false;
        }
        forall i | before <= i < at ensures stream[i] == 0 {
          assert got.bytes[i - before] == stream[i];
        }
      }
    }
  }

  method AllZeroBytes(s: Bytes) returns (zero: bool)
    ensures zero <==> AllZero(s)
  {
    var i := 0;
    while i < |s|
      invariant 0 <= i <= |s| && AllZero(s[..i])
    {
      if s[i] != 0 {
        return false;
      }
      assert s[..i + 1] == s[..i] + [s[i]];
      i := i + 1;
    }
    assert s[..i] == s;
    return true;
  }

  /** extractArchiveToConfigDir up to the swap: what the staging tree holds. */
  method ReadArchive(c: Codec, archive: Bytes, gives: nat -> nat) returns (v: Verdict)
    ensures v == Verdicted(c, archive)
  {
    var member := c.unzip(archive);
    if member.None? {
      return NotGzip;
    }
    var (stream, rest) := member.value;
    var reader := new BoundedReader(stream, gives, MAX_EXPANDED);
    var st := NOTHING;
    while true
      invariant reader.Valid() && reader.stream == stream && reader.max == MAX_EXPANDED
      invariant Unpack(c, stream, reader.at, st, rest) == Verdicted(c, archive)
      decreases |stream| - reader.at
    {
      var parsed := c.parse(stream[reader.at..]);
      match parsed {
        case Bad => return TarBroken;
        case End(n) =>
          if reader.at + n > |stream| {
            return TarBroken;
          }
          var ok := reader.Consume(n);
          if !ok {
            return TooMuchExpanded;
          }
          var hidden, over := reader.Drain();
          if hidden {
            return HiddenData;
          }
          if over {
            return TooMuchExpanded;
          }
          return Conclude(c, st, rest);
        case Item(e, n) =>
          if n == 0 || reader.at + n > |stream| {
            return TarBroken;
          }
          var ok := reader.Consume(n);
          if !ok {
            return TooMuchExpanded;
          }
          var (after, refusal) := Extract(c, st, e);
          st := after;
          if refusal.Some? {
            return refusal.value;
          }
      }
    }
  }

  // --------------------------------------------------------------- round trip

  lemma {:induction false} EncodedConcat(c: Codec, a: seq<Entry>, b: seq<Entry>)
    ensures Encoded(c, a + b) == Encoded(c, a) + Encoded(c, b)
  {
    if b == [] {
      assert a + b == a;
    } else {
      assert (a + b)[..|a + b| - 1] == a + b[..|b| - 1];
      EncodedConcat(c, a, b[..|b| - 1]);
    }
  }

  /** The stream from the `i`th entry on. */
  lemma StreamAt(c: Codec, es: seq<Entry>, i: nat)
    requires i < |es|
    ensures var at := |Encoded(c, es[..i])|;
            at + |c.encode(es[i])| == |Encoded(c, es[..i + 1])| <= |TarOf(c, es)| &&
            exists rest :: TarOf(c, es)[at..] == c.encode(es[i]) + rest
  {
    var head, e, tail := es[..i], es[i], es[i + 1..];
    assert es[..i + 1][..i] == head;
    assert es == es[..i + 1] + tail;
    EncodedConcat(c, es[..i + 1], tail);
    var rest := Encoded(c, tail) + c.end;
    assert TarOf(c, es) == Encoded(c, head) + (c.encode(e) + rest);
    assert TarOf(c, es)[|Encoded(c, head)|..] == c.encode(e) + rest;
  }

  /** The regular files among the entries. */
  function FileMap(es: seq<Entry>): map<string, Bytes> {
    if es == [] then map[]
    else
      var before := FileMap(es[..|es| - 1]);
      var e := es[|es| - 1];
      if e.File? then before[e.name := e.content] else before
  }

  function StagedAfter(es: seq<Entry>): Staged { Staged(FileMap(es), Files(es), |es|, Content(es)) }

  /** An entry as the writer makes it. */
  ghost predicate Written(c: Codec, e: Entry) {
    !e.Link? && WalkPath(c.clean(e.name)) && Base(c.clean(e.name)) != PERMISSIONS &&
    (e.File? ==> c.clean(e.name) == e.name)
  }

  ghost predicate AllWritten(c: Codec, es: seq<Entry>) { forall i :: 0 <= i < |es| ==> Written(c, es[i]) }

  ghost predicate UnsafeFrom(c: Codec, es: seq<Entry>, i: nat) {
    exists j :: i <= j < |es| && Unsafe(c.clean(es[j].name))
  }

  lemma {:induction false} TotalsGrow(c: Codec, es: seq<Entry>, i: nat)
    requires i <= |es|
    ensures Content(es[..i]) <= Content(es)
    decreases |es|
  {
    if i < |es| {
      assert es[..|es| - 1][..i] == es[..i];
      TotalsGrow(c, es[..|es| - 1], i);
    } else {
      assert es[..i] == es;
    }
  }

  lemma ExtractWritten(c: Codec, es: seq<Entry>, i: nat)
    requires i < |es| && AllWritten(c, es) && Admits(c, es) && !Unsafe(c.clean(es[i].name))
    ensures Extract(c, StagedAfter(es[..i]), es[i]) == (StagedAfter(es[..i + 1]), None)
  {
    assert es[..i + 1][..i] == es[..i];
    TotalsGrow(c, es, i + 1);
  }

  lemma UnpackEnd(c: Codec, es: seq<Entry>)
    requires Faithful(c) && WithinLimits(c, es)
    ensures Unpack(c, TarOf(c, es), |Encoded(c, es)|, StagedAfter(es), []) == Conclude(c, StagedAfter(es), [])
  {
    assert TarOf(c, es)[|Encoded(c, es)|..] == c.end + [];
    assert c.parse(c.end + []) == End(|c.end|);
  }

  lemma UnsafeFromNext(c: Codec, es: seq<Entry>, i: nat)
    requires i < |es|
    ensures UnsafeFrom(c, es, i) <==> Unsafe(c.clean(es[i].name)) || UnsafeFrom(c, es, i + 1)
  {
  }

  /** The reader finds the `i`th entry where the writer put it. */
  ghost predicate Found(c: Codec, es: seq<Entry>, i: nat)
    requires i < |es|
  {
    var stream, at, n := TarOf(c, es), |Encoded(c, es[..i])|, |c.encode(es[i])|;
    0 < n && at + n == |Encoded(c, es[..i + 1])| <= |stream| && c.parse(stream[at..]) == Item(es[i], n)
  }

  /** From the `i`th entry on, the reader gets to the end, or to the first unsafe path. */
  ghost predicate ReadsFrom(c: Codec, es: seq<Entry>, i: nat)
    requires i <= |es|
  {
    var at := |Encoded(c, es[..i])|;
    at <= |TarOf(c, es)| &&
    Unpack(c, TarOf(c, es), at, StagedAfter(es[..i]), []) ==
      if UnsafeFrom(c, es, i) then UnsafePath else Conclude(c, StagedAfter(es), [])
  }

  lemma ReadsOneMore(c: Codec, es: seq<Entry>, i: nat)
    requires AllWritten(c, es) && WithinLimits(c, es) && i < |es| && Found(c, es, i) && ReadsFrom(c, es, i + 1)
    ensures ReadsFrom(c, es, i)
  {
    UnpackStep(c, es, i, TarOf(c, es), |Encoded(c, es[..i])|, |c.encode(es[i])|);
    UnsafeFromNext(c, es, i);
  }

  lemma ReadsAtEnd(c: Codec, es: seq<Entry>)
    requires Unpack(c, TarOf(c, es), |Encoded(c, es)|, StagedAfter(es), []) == Conclude(c, StagedAfter(es), [])
    ensures ReadsFrom(c, es, |es|)
  {
    assert es[..|es|] == es;
  }

  lemma {:induction false} UnpackFrom(c: Codec, es: seq<Entry>, i: nat)
    requires AllWritten(c, es) && WithinLimits(c, es) && i <= |es|
    requires forall j :: 0 <= j < |es| ==> Found(c, es, j)
    requires ReadsFrom(c, es, |es|)
    ensures ReadsFrom(c, es, i)
    decreases |es| - i
  {
    if i < |es| {
      UnpackFrom(c, es, i + 1);
      ReadsOneMore(c, es, i);
    }
  }

  lemma UnpackItem(c: Codec, stream: Bytes, at: nat, st: Staged, e: Entry, n: nat)
    requires 0 < n && at + n <= |stream| <= MAX_EXPANDED && c.parse(stream[at..]) == Item(e, n)
    ensures Unpack(c, stream, at, st, []) ==
            if Extract(c, st, e).1.Some? then Extract(c, st, e).1.value
            else Unpack(c, stream, at + n, Extract(c, st, e).0, [])
  {
  }

  lemma ExtractUnsafe(c: Codec, st: Staged, e: Entry)
    requires Unsafe(c.clean(e.name)) && st.seen < MAX_ENTRIES
    ensures Extract(c, st, e).1 == Some(UnsafePath)
  {
  }

  lemma UnpackSafe(c: Codec, es: seq<Entry>, i: nat, stream: Bytes, at: nat, n: nat)
    requires AllWritten(c, es) && WithinLimits(c, es) && i < |es| && !Unsafe(c.clean(es[i].name))
    requires 0 < n && at + n <= |stream| <= MAX_EXPANDED && c.parse(stream[at..]) == Item(es[i], n)
    ensures Unpack(c, stream, at, StagedAfter(es[..i]), []) == Unpack(c, stream, at + n, StagedAfter(es[..i + 1]), [])
  {
    ExtractWritten(c, es, i);
    UnpackItem(c, stream, at, StagedAfter(es[..i]), es[i], n);
  }

  lemma UnpackStep(c: Codec, es: seq<Entry>, i: nat, stream: Bytes, at: nat, n: nat)
    requires AllWritten(c, es) && WithinLimits(c, es) && i < |es|
    requires 0 < n && at + n <= |stream| <= MAX_EXPANDED && c.parse(stream[at..]) == Item(es[i], n)
    ensures Unpack(c, stream, at, StagedAfter(es[..i]), []) ==
            if Unsafe(c.clean(es[i].name)) then UnsafePath else Unpack(c, stream, at + n, StagedAfter(es[..i + 1]), [])
  {
    if Unsafe(c.clean(es[i].name)) {
      var st := StagedAfter(es[..i]);
      ExtractUnsafe(c, st, es[i]);
      UnpackItem(c, stream, at, st, es[i], n);
    } else {
      UnpackSafe(c, es, i, stream, at, n);
    }
  }

  lemma EntriesAreFound(c: Codec, es: seq<Entry>, i: nat)
    requires Faithful(c) && i < |es|
    ensures Found(c, es, i)
  {
    StreamAt(c, es, i);
    var rest :| TarOf(c, es)[|Encoded(c, es[..i])|..] == c.encode(es[i]) + rest;
    assert c.parse(c.encode(es[i]) + rest) == Item(es[i], |c.encode(es[i])|);
  }

  // ------------------------------------------------------------ the theorem

  /** What a walk of one unchanging tree looks like. */
  ghost predicate TreeWalk(walk: seq<Seen>) {
    (forall i :: 0 <= i < |walk| ==> WalkPath(walk[i].rel)) &&
    (forall i, j :: 0 <= i < j < |walk| ==> walk[i].rel != walk[j].rel)
  }

  predicate Counted(w: Seen) { w.Regular? && w.readable && Portable(w.rel) }

  /** The regular files that belong in the archive. */
  ghost predicate IsTree(files: map<string, Bytes>, walk: seq<Seen>) {
    (forall i :: 0 <= i < |walk| && Counted(walk[i]) ==>
       walk[i].rel in files && files[walk[i].rel] == walk[i].content) &&
    (forall rel :: rel in files ==> exists i :: 0 <= i < |walk| && Counted(walk[i]) && walk[i].rel == rel)
  }

  lemma {:induction false} ArchivedIsWritten(c: Codec, walk: seq<Seen>)
    requires Faithful(c) && TreeWalk(walk)
    ensures AllWritten(c, Archived(walk))
  {
    if walk != [] {
      var n := |walk| - 1;
      ArchivedIsWritten(c, walk[..n]);
      assert WalkPath(walk[n].rel);
    }
  }

  lemma {:induction false} FileMapIsTree(walk: seq<Seen>)
    requires TreeWalk(walk)
    ensures IsTree(FileMap(Archived(walk)), walk)
  {
    if walk != [] {
      var n := |walk| - 1;
      var init := walk[..n];
      FileMapIsTree(init);
      var es := Archived(init);
      if EntryOf(walk[n]).Some? { assert (es + [EntryOf(walk[n]).value])[..|es|] == es; }
      OneMoreFile(FileMap(es), walk);
    }
  }

  lemma OneMoreFile(files: map<string, Bytes>, walk: seq<Seen>)
    requires walk != [] && TreeWalk(walk) && IsTree(files, walk[..|walk| - 1])
    ensures var w := walk[|walk| - 1];
            IsTree(if Counted(w) then files[w.rel := w.content] else files, walk)
  {
  }

  /** Some archived path begins with "..". */
  ghost predicate DotDot(walk: seq<Seen>) {
    exists i :: 0 <= i < |walk| && EntryOf(walk[i]).Some? && ".." <= walk[i].rel
  }

  lemma {:induction false} UnsafeIsDotDot(c: Codec, walk: seq<Seen>)
    requires Faithful(c) && TreeWalk(walk)
    ensures UnsafeFrom(c, Archived(walk), 0) <==> DotDot(walk)
  {
    if walk != [] {
      var n := |walk| - 1;
      var init := walk[..n];
      UnsafeIsDotDot(c, init);
      LastUnsafe(c, walk);
      DotDotGrows(walk);
      UnsafeGrows(c, Archived(init), Archived(walk));
    }
  }

  lemma DotDotGrows(walk: seq<Seen>)
    requires walk != []
    ensures var n := |walk| - 1;
            DotDot(walk) <==> DotDot(walk[..n]) || (EntryOf(walk[n]).Some? && ".." <= walk[n].rel)
  {
  }

  lemma UnsafeGrows(c: Codec, es: seq<Entry>, es': seq<Entry>)
    requires es' == es || (|es'| == |es| + 1 && es <= es')
    ensures UnsafeFrom(c, es', 0) <==>
            UnsafeFrom(c, es, 0) || (|es'| == |es| + 1 && Unsafe(c.clean(es'[|es|].name)))
  {
  }

  lemma LastUnsafe(c: Codec, walk: seq<Seen>)
    requires Faithful(c) && walk != [] && WalkPath(walk[|walk| - 1].rel)
    ensures var n, es, es' := |walk| - 1, Archived(walk[..|walk| - 1]), Archived(walk);
            if EntryOf(walk[n]).None? then es' == es
            else |es'| == |es| + 1 && (Unsafe(c.clean(es'[|es|].name)) <==> ".." <= walk[n].rel)
  {
  }

  /** What was written is read back exactly: every limit and the single-member check
      are passed, and the result is the tree's files byte for byte, counted right. The
      one archive that its own reader refuses is one with a path that begins with
      ".."; and the configuration file must parse. */
  lemma WrittenIsReadBack(c: Codec, walk: seq<Seen>)
    requires Faithful(c) && TreeWalk(walk) && Writable(c, walk)
    ensures var v := Verdicted(c, c.zip(TarOf(c, Archived(walk))));
            if DotDot(walk) then v == UnsafePath
            else
              CONFIG in FileMap(Archived(walk)) && IsTree(FileMap(Archived(walk)), walk) &&
              v == (if c.validConfig(FileMap(Archived(walk))[CONFIG])
                    then Extracted(FileMap(Archived(walk)), Files(Archived(walk))) else BadConfig)
  {
    var es := Archived(walk);
    ArchivedIsWritten(c, walk);
    UnsafeIsDotDot(c, walk);
    FileMapIsTree(walk);
    assert es[..0] == [];
    forall j | 0 <= j < |es| ensures Found(c, es, j) { EntriesAreFound(c, es, j); }
    UnpackEnd(c, es);
    ReadsAtEnd(c, es);
    UnpackFrom(c, es, 0);
    assert TarOf(c, es)[0..] == TarOf(c, es);
    ConfigIsMapped(es);
  }

  lemma {:induction false} ConfigIsMapped(es: seq<Entry>)
    requires HasConfig(es)
    ensures CONFIG in FileMap(es)
  {
    var init, last := es[..|es| - 1], es[|es| - 1];
    if !(last.File? && last.name == CONFIG) {
      assert es == init + [last];
      ConfigIsMapped(init);
    }
  }
}
