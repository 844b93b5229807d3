/** The history of saved artifacts (internal/studio/artifact_versions.go): for each
    artifact a manifest of versions and content files shared by digest.

    Every file is written to a temporary name and renamed, so a write happens at once
    or not at all; every call may fail. All states of the store are recorded, so a
    claim about every recorded state is a claim about a crash at any point. */
module ArtifactVersions {
  import AnswerPager
  import opened Wrappers

  type Bytes = seq<AnswerPager.Byte>

  const PER_ARTIFACT: nat := 20
  const HISTORIES: nat := 64
  const PROJECT_BYTES: nat := 0x800_0000   // 128 MiB
  const MANIFEST_BYTES: nat := 0x2_0000    // 128 KiB
  const PREVIEW_BYTES: nat := 0x20_0000    // 2 MiB

  datatype Version = Version(id: string, digest: string, size: nat)

  // One directory: its manifest (empty if there is none yet) and content files.
  datatype History = History(name: string, versions: seq<Version>, contents: map<string, Bytes>)

  // ---------------------------------------------------------------- artifacts

  // What is at an artifact's path. Link: a symbolic link, there or on the way, and the
  // regular file it leads to, if any; Other: a directory, say, a link to one or to the
  // outside, or something below a file.
  datatype Entry = File(content: Bytes) | Link(target: Option<Bytes>) | Other

  datatype Read = Got(content: Bytes) | Missing | Unfit

  /** Text that the preview shows, and so the only content that gets a version. */
  predicate Previewable(content: Bytes) {
    |content| <= PREVIEW_BYTES && AnswerPager.ValidUtf8(content) && 0 !in content
  }

  function Seen(content: Bytes): Read { if Previewable(content) then Got(content) else Unfit }

  /** What readArtifactContentAt makes of it. */
  function Reading(files: map<string, Entry>, name: string): Read {
    if name !in files then Missing
    else
      match files[name]
      case File(content) => Seen(content)
      case Link(target) => if target.None? then Missing else Seen(target.value)
      case Other => Unfit
  }

  /** A restore writes regular files only, and follows no links. */
  predicate Replaceable(files: map<string, Entry>, name: string) { name in files ==> files[name].File? }

  function BaseName(path: string): string { if '/' !in path then path else BaseName(path[1..]) }

  /** unicode.IsControl. */
  predicate IsControl(c: char) { c < ' ' || 0x7F <= c as int <= 0x9F }

  /** The names that a manifest may hold when it is read, but not when it is written. */
  predicate Legible(name: string) { forall i :: 0 <= i < |BaseName(name)| ==> !IsControl(BaseName(name)[i]) }

  // ------------------------------------------------------------- the store's rules

  predicate NoRepeats(vs: seq<Version>) { forall i :: 0 < i < |vs| ==> vs[i].digest != vs[i - 1].digest }

  ghost predicate DistinctIds(vs: seq<Version>) { forall i, j :: 0 <= i < j < |vs| ==> vs[i].id != vs[j].id }

  /** Every content file is text with the digest it is named by, and every listed
      version can be read: its content is there, with the recorded size. */
  ghost predicate Backed(sha: Bytes -> string, vs: seq<Version>, contents: map<string, Bytes>) {
    (forall d :: d in contents ==> sha(contents[d]) == d && Previewable(contents[d])) &&
    (forall v :: v in vs ==> v.digest in contents && |contents[v.digest]| == v.size)
  }

  ghost predicate Sound(sha: Bytes -> string, h: History) {
    |h.versions| <= PER_ARTIFACT && NoRepeats(h.versions) && DistinctIds(h.versions) &&
      Backed(sha, h.versions, h.contents)
  }

  /** The bytes a manifest stands for, each digest counted once. */
  function Distinct(vs: seq<Version>, counted: set<string>): nat {
    if vs == [] then 0
    else (if vs[0].digest in counted then 0 else vs[0].size) + Distinct(vs[1..], counted + {vs[0].digest})
  }

  function Total(hs: seq<History>): nat {
    if hs == [] then 0 else Total(hs[..|hs| - 1]) + Distinct(hs[|hs| - 1].versions, {})
  }

  ghost predicate Named(hs: seq<History>) { forall i, j :: 0 <= i < j < |hs| ==> hs[i].name != hs[j].name }

  ghost predicate AllSound(sha: Bytes -> string, hs: seq<History>) {
    Named(hs) && (forall i :: 0 <= i < |hs| ==> Sound(sha, hs[i])) && Total(hs) <= PROJECT_BYTES
  }

  /** The manifest, if there is one, is accepted when it is read. */
  predicate Loads(h: History) { h.versions == [] || Legible(h.name) }

  ghost predicate OthersLoad(hs: seq<History>, i: nat) { forall j :: 0 <= j < |hs| && j != i ==> Loads(hs[j]) }

  ghost predicate Injective(sha: Bytes -> string) { forall a, b :: sha(a) == sha(b) ==> a == b }

  // ------------------------------------------------------------------- totals

  lemma {:induction false} TotalConcat(a: seq<History>, b: seq<History>)
    ensures Total(a + b) == Total(a) + Total(b)
  {
    if b == [] {
      assert a + b == a;
    } else {
      assert (a + b)[..|a + b| - 1] == a + b[..|b| - 1];
      TotalConcat(a, b[..|b| - 1]);
    }
  }

  lemma TotalNext(hs: seq<History>, lo: nat, i: nat)
    requires lo <= i < |hs|
    ensures Total(hs[lo..i + 1]) == Total(hs[lo..i]) + Distinct(hs[i].versions, {})
  {
    var part := hs[lo..i + 1];
    assert part[..|part| - 1] == hs[lo..i] && part[|part| - 1] == hs[i];
  }

  function Others(hs: seq<History>, i: nat): nat
    requires i < |hs|
  {
    Total(hs[..i]) + Total(hs[i + 1..])
  }

  /** The same, up to history `i`. */
  function Counted(hs: seq<History>, exclude: nat, i: nat): nat
    requires exclude < |hs| && i <= |hs|
  {
    if i <= exclude then Total(hs[0..i]) else Total(hs[0..exclude]) + Total(hs[exclude + 1..i])
  }

  lemma CountedNext(hs: seq<History>, exclude: nat, i: nat)
    requires exclude < |hs| && i < |hs|
    ensures Counted(hs, exclude, i + 1) ==
            Counted(hs, exclude, i) + (if i == exclude then 0 else Distinct(hs[i].versions, {}))
  {
    if i != exclude { TotalNext(hs, if i < exclude then 0 else exclude + 1, i); }
  }

  lemma CountedAll(hs: seq<History>, exclude: nat)
    requires exclude < |hs|
    ensures Counted(hs, exclude, |hs|) == Others(hs, exclude)
  {
    assert hs[exclude + 1..|hs|] == hs[exclude + 1..] && hs[0..exclude] == hs[..exclude];
  }

  lemma TotalSplits(hs: seq<History>, i: nat, h: History)
    requires i < |hs|
    ensures Total(hs[i := h]) == Others(hs, i) + Distinct(h.versions, {})
  {
    var hs' := hs[i := h];
    assert hs' == hs[..i] + [h] + hs[i + 1..];
    TotalConcat(hs[..i] + [h], hs[i + 1..]);
    TotalConcat(hs[..i], [h]);
    assert [h][..0] == [];
  }

  /** Changing one history within the budget keeps the store sound. */
  lemma ReplaceKeeps(sha: Bytes -> string, hs: seq<History>, i: nat, h: History)
    requires AllSound(sha, hs) && i < |hs| && h.name == hs[i].name && Sound(sha, h)
    requires Others(hs, i) + Distinct(h.versions, {}) <= PROJECT_BYTES
    ensures AllSound(sha, hs[i := h])
  {
    TotalSplits(hs, i, h);
  }

  lemma SameVersionsKeep(sha: Bytes -> string, hs: seq<History>, i: nat, contents: map<string, Bytes>)
    requires AllSound(sha, hs) && i < |hs| && Backed(sha, hs[i].versions, contents)
    ensures AllSound(sha, hs[i := hs[i].(contents := contents)])
  {
    TotalSplits(hs, i, hs[i]);
    assert hs[i := hs[i]] == hs;
    ReplaceKeeps(sha, hs, i, hs[i].(contents := contents));
  }

  // -------------------------------------------------------------- new manifests

  function Trim(vs: seq<Version>): seq<Version> {
    if |vs| > PER_ARTIFACT then vs[|vs| - PER_ARTIFACT..] else vs
  }

  predicate NewestIs(vs: seq<Version>, digest: string) { vs != [] && vs[|vs| - 1].digest == digest }

  /** The manifest after saving content with this digest. */
  function Recorded(vs: seq<Version>, v: Version): seq<Version> {
    if NewestIs(vs, v.digest) then vs else Trim(vs + [v])
  }

  predicate FreshId(vs: seq<Version>, id: string) { forall k :: 0 <= k < |vs| ==> vs[k].id != id }

  lemma TrimIsNewest(vs: seq<Version>, v: Version, i: nat)
    requires i < |Trim(vs + [v])|
    ensures var cut := |vs| + 1 - |Trim(vs + [v])|;
            Trim(vs + [v])[i] == if cut + i == |vs| then v else vs[cut + i]
  {
  }

  lemma RecordingOrders(vs: seq<Version>, v: Version)
    requires NoRepeats(vs) && DistinctIds(vs) && !NewestIs(vs, v.digest) && FreshId(vs, v.id)
    ensures NoRepeats(Trim(vs + [v])) && DistinctIds(Trim(vs + [v])) && NewestIs(Trim(vs + [v]), v.digest)
    ensures |Trim(vs + [v])| <= PER_ARTIFACT
  {
  }

  lemma RecordingBacks(sha: Bytes -> string, vs: seq<Version>, v: Version, contents: map<string, Bytes>)
    requires Backed(sha, vs, contents) && v.digest in contents
    requires |contents[v.digest]| == v.size
    ensures Backed(sha, Trim(vs + [v]), contents)
  {
  }

  /** Exactly one version can be lost by saving the current content: the oldest of a
      full manifest, and only if that content was not the newest version already. */
  lemma SurvivesExactly(vs: seq<Version>, v: Version, k: nat)
    requires |vs| <= PER_ARTIFACT && DistinctIds(vs) && k < |vs| && FreshId(vs, v.id)
    ensures vs[k] in Recorded(vs, v) <==> !(|vs| == PER_ARTIFACT && k == 0 && !NewestIs(vs, v.digest))
  {
    var all := vs + [v];
    if !NewestIs(vs, v.digest) && |vs| == PER_ARTIFACT {
      assert Recorded(vs, v) == all[1..];
      if k > 0 { assert all[1..][k - 1] == vs[k]; }
    } else {
      assert vs[k] in vs;
      assert all[k] == vs[k];
    }
  }

  // -------------------------------------------------------------------- store

  class VersionStore {
    var hs: seq<History>
    var files: map<string, Entry>   // the artifacts themselves, in the project
    var restoring: bool
    var clock: nat
    ghost var seen: seq<seq<History>>
    const sha: Bytes -> string
    const text: (string, seq<Version>) -> nat   // length of a manifest's encoding
    const fails: nat -> bool

    constructor (files: map<string, Entry>, sha: Bytes -> string, text: (string, seq<Version>) -> nat,
                 fails: nat -> bool)
      ensures Valid() && hs == [] && this.files == files && !restoring
      ensures this.sha == sha && this.text == text && this.fails == fails
    {
      hs, clock, seen, this.files, restoring := [], 0, [[]], files, false;
      this.sha, this.text, this.fails := sha, text, fails;
    }

    /** The store kept its rules in every state so far. */
    ghost predicate Valid()
      reads this
    {
      AllSound(sha, hs) && forall i :: 0 <= i < |seen| ==> AllSound(sha, seen[i])
    }

    /** The next call on the file system. */
    method Try() returns (fault: bool)
      modifies this`clock
      ensures NoFaults() ==> !fault
    {
      fault := fails(clock);
      clock := clock + 1;
    }

    /** The new state of one history, as a single write. */
    method Put(i: nat, h: History)
      requires Valid() && i < |hs| && AllSound(sha, hs[i := h])
      modifies this`hs, this`seen
      ensures Valid() && hs == old(hs)[i := h] && old(seen) <= seen
    {
      hs := hs[i := h];
      seen := seen + [hs];
    }

    /** One history's share of it. */
    method UsageOf(i: nat) returns (own: Option<nat>)
      requires i < |hs|
      ensures own == if Loads(hs[i]) then Some(Distinct(hs[i].versions, {})) else None
    {
      if !Loads(hs[i]) {
        return None;
      }
      var bytes := DistinctBytes(hs[i].versions);
      return Some(bytes);
    }

    /** artifactVersionProjectUsage: the bytes of the other histories. */
    method Usage(exclude: nat) returns (total: Option<nat>)
      requires exclude < |hs|
      modifies this`clock
      ensures total.Some? ==> total.value == Others(hs, exclude) && |hs| <= HISTORIES && OthersLoad(hs, exclude)
      ensures NoFaults() && |hs| <= HISTORIES && OthersLoad(hs, exclude) ==> total.Some?
    {
      var sum, i := 0, 0;
      while i < |hs|
        invariant 0 <= i <= |hs| && i <= HISTORIES
        invariant forall j :: 0 <= j < i && j != exclude ==> Loads(hs[j])
        invariant sum == Counted(hs, exclude, i)
      {
        var fault := Try();
        if fault || i >= HISTORIES {
          return None;
        }
        if i != exclude {
          var own := UsageOf(i);
          if own.None? {
            return None;
          }
          sum := sum + own.value;
        }
        CountedNext(hs, exclude, i);
        i := i + 1;
      }
      CountedAll(hs, exclude);
      return Some(sum);
    }

    /** Creates the directory if it is missing. */
    method Open(name: string) returns (i: Option<nat>, created: bool)
      requires Valid()
      modifies this`hs, this`clock, this`seen
      ensures Valid() && old(seen) <= seen && (NoFaults() ==> i.Some?)
      ensures i.None? ==> hs == old(hs)
      ensures i.Some? ==> i.value < |hs| && hs[i.value].name == name && i.value == IndexIn(old(hs), name)
      ensures i.Some? && !created ==> hs == old(hs)
      ensures i.Some? && created ==> hs == old(hs) + [Empty(name)] && i.value == |old(hs)|
    {
      created := false;
      var lstatFault := Try();
      if lstatFault {
        return None, false;
      }
      var at := IndexIn(hs, name);
      if at < |hs| {
        return Some(at), false;
      }
      var mkdirFault := Try();
      if mkdirFault {
        return None, false;
      }
      NewDirKeeps(sha, hs, name);
      hs := hs + [Empty(name)];
      seen := seen + [hs];
      return Some(at), true;
    }

    /** os.Remove of a directory that was just created, if it is still empty. */
    method Forget(i: nat, created: bool)
      requires Valid() && i < |hs| && (created ==> i == |hs| - 1)
      modifies this`hs, this`clock, this`seen
      ensures Valid() && old(seen) <= seen
      ensures hs == old(hs) || (created && hs == old(hs)[..i] && old(hs)[i] == Empty(old(hs)[i].name))
    {
      var fault := Try();
      if created && !fault && hs[i].contents == map[] && hs[i].versions == [] {
        DropLastKeeps(sha, hs);
        hs := hs[..i];
        seen := seen + [hs];
      }
    }

    ghost predicate NoFaults() { forall k :: !fails(k) }

    predicate Short(name: string, vs: seq<Version>) { text(name, vs) <= MANIFEST_BYTES }

    /** Makes sure that the content file is there. */
    method StoreContent(i: nat, content: Bytes) returns (ok: bool, wrote: bool)
      requires Valid() && i < |hs| && Previewable(content)
      modifies this`hs, this`clock, this`seen
      ensures Valid() && old(seen) <= seen && (NoFaults() && Injective(sha) ==> ok)
      ensures !ok ==> hs == old(hs) && !wrote
      ensures ok ==> wrote == (sha(content) !in old(hs)[i].contents)
      ensures ok && wrote ==> hs == old(hs)[i := old(hs)[i].(contents := old(hs)[i].contents[sha(content) := content])]
      ensures ok && !wrote ==> hs == old(hs) && hs[i].contents[sha(content)] == content
    {
      var readFault := Try();
      if readFault {
        return false, false;
      }
      var digest, h := sha(content), hs[i];
      if digest in h.contents {
        return h.contents[digest] == content, false;
      }
      var writeFault := Try();
      if writeFault {
        return false, false;
      }
      SameVersionsKeep(sha, hs, i, h.contents[digest := content]);
      Put(i, h.(contents := h.contents[digest := content]));
      return true, true;
    }

    /** After a failed manifest write: takes back the content file just written. */
    method TakeBack(i: nat, digest: string, wrote: bool)
      requires Valid() && i < |hs| && (wrote ==> forall v :: v in hs[i].versions ==> v.digest != digest)
      modifies this`hs, this`clock, this`seen
      ensures Valid() && old(seen) <= seen
      ensures hs == old(hs) || (wrote && hs == old(hs)[i := Without(old(hs)[i], digest)])
    {
      var fault := Try();
      if wrote && !fault {
        SameVersionsKeep(sha, hs, i, hs[i].contents - {digest});
        Put(i, Without(hs[i], digest));
      }
    }

    /** Deletes one content file, if no version refers to it. */
    method Discard(i: nat, digest: string)
      requires Valid() && i < |hs| && digest in hs[i].contents
      modifies this`hs, this`clock, this`seen
      ensures Valid() && old(seen) <= seen
      ensures hs == old(hs) || hs == old(hs)[i := old(hs)[i].(contents := old(hs)[i].contents - {digest})]
      ensures NoFaults() && hs == old(hs) ==> Refers(hs[i].versions, digest)
    {
      var kept := InUse(hs[i].versions, digest);
      var fault := Try();
      if !kept && !fault {
        SameVersionsKeep(sha, hs, i, hs[i].contents - {digest});
        Put(i, hs[i].(contents := hs[i].contents - {digest}));
      }
    }

    /** Deletes the content files that no version refers to any more, as far as it
        can. */
    method Collect(i: nat)
      requires Valid() && i < |hs|
      modifies this`hs, this`clock, this`seen
      ensures Valid() && old(seen) <= seen && |hs| == |old(hs)|
      ensures hs == old(hs)[i := old(hs)[i].(contents := hs[i].contents)]
      ensures NoFaults() ==> forall d :: d in hs[i].contents ==> Refers(hs[i].versions, d)
    {
      var todo := hs[i].contents.Keys;
      while todo != {}
        invariant Valid() && old(seen) <= seen && |hs| == |old(hs)| && todo <= hs[i].contents.Keys
        invariant hs == old(hs)[i := old(hs)[i].(contents := hs[i].contents)]
        invariant NoFaults() ==> forall d :: d in hs[i].contents && d !in todo ==> Refers(hs[i].versions, d)
        decreases |todo|
      {
        var digest :| digest in todo;
        todo := todo - {digest};
        Discard(i, digest);
      }
    }

    /** Writes the manifest with the new version, if it is not too long, or takes the
        content back. */
    method Commit(i: nat, v: Version, wrote: bool) returns (ok: bool)
      requires Valid() && i < |hs| && !NewestIs(hs[i].versions, v.digest) && FreshId(hs[i].versions, v.id)
      requires v.digest in hs[i].contents && |hs[i].contents[v.digest]| == v.size
      requires Others(hs, i) + Distinct(Trim(hs[i].versions + [v]), {}) <= PROJECT_BYTES
      requires wrote ==> forall x :: x in hs[i].versions ==> x.digest != v.digest
      modifies this`hs, this`clock, this`seen
      ensures Valid() && old(seen) <= seen && |hs| == |old(hs)|
      ensures NoFaults() ==> (ok <==> Short(hs[i].name, Trim(old(hs)[i].versions + [v])))
      ensures !ok ==> hs == old(hs) || (wrote && hs == old(hs)[i := Without(old(hs)[i], v.digest)])
      ensures ok ==> hs == old(hs)[i := old(hs)[i].(versions := Trim(old(hs)[i].versions + [v]))]
    {
      var fault := Try();
      if fault || text(hs[i].name, Trim(hs[i].versions + [v])) > MANIFEST_BYTES {
        TakeBack(i, v.digest, wrote);
        return false;
      }
      RecordingOrders(hs[i].versions, v);
      RecordingBacks(sha, hs[i].versions, v, hs[i].contents);
      var h := hs[i].(versions := Trim(hs[i].versions + [v]));
      ReplaceKeeps(sha, hs, i, h);
      Put(i, h);
      return true;
    }

    /** The content, then the manifest. */
    method Write(i: nat, v: Version, content: Bytes) returns (ok: bool)
      requires Valid() && i < |hs| && v.digest == sha(content) && v.size == |content| && Previewable(content)
      requires !NewestIs(hs[i].versions, v.digest) && FreshId(hs[i].versions, v.id)
      requires Others(hs, i) + Distinct(Trim(hs[i].versions + [v]), {}) <= PROJECT_BYTES
      modifies this`hs, this`clock, this`seen
      ensures Valid() && old(seen) <= seen && |hs| == |old(hs)|
      ensures NoFaults() && Injective(sha) ==> (ok <==> Short(hs[i].name, Trim(old(hs)[i].versions + [v])))
      ensures !ok ==> hs == old(hs) || hs == old(hs)[i := With(sha, old(hs)[i], content)]
      ensures ok ==> hs == old(hs)[i := History(old(hs)[i].name, Trim(old(hs)[i].versions + [v]), hs[i].contents)]
    {
      ghost var before := hs[i].contents;
      var stored, wrote := StoreContent(i, content);
      if !stored {
        return false;
      }
      OthersSame(old(hs), i, hs[i]);
      WroteUnlisted(sha, hs[i].versions, before, v.digest);
      if wrote { WithoutUndoes(sha, old(hs), i, content); }
      ok := Commit(i, v, wrote);
    }

    /** saveArtifactVersionDocument once the content is known to differ from the newest
        version: budget, content, manifest, collection. */
    method Record(i: nat, v: Version, content: Bytes) returns (ok: bool)
      requires Valid() && i < |hs| && v.digest == sha(content) && v.size == |content| && Previewable(content)
      requires !NewestIs(hs[i].versions, v.digest) && FreshId(hs[i].versions, v.id)
      modifies this`hs, this`clock, this`seen
      ensures Valid() && old(seen) <= seen && |hs| == |old(hs)|
      ensures !ok ==> hs == old(hs) || hs == old(hs)[i := With(sha, old(hs)[i], content)]
      ensures ok ==> hs == old(hs)[i := History(old(hs)[i].name, Trim(old(hs)[i].versions + [v]), hs[i].contents)]
      ensures NoFaults() && Injective(sha) ==> (ok <==> InBudget(text, old(hs), i, v))
    {
      var others := Usage(i);
      if others.None? {
        return false;
      }
      var own := DistinctBytes(Trim(hs[i].versions + [v]));
      if others.value + own > PROJECT_BYTES {
        return false;
      }
      ok := Write(i, v, content);
      if ok {
        Collect(i);
      }
    }

    /** A save that fails after its directory was opened changes no manifest. */
    method Abandon(ghost before: seq<History>, name: string, i: nat, created: bool)
      requires Valid() && i < |hs| && hs[i].name == name && (created ==> i == |hs| - 1)
      requires forall n :: n != name ==> Of(hs, n) == Of(before, n)
      requires created ==> hs[i].versions == []
      modifies this`hs, this`clock, this`seen
      ensures Valid() && old(seen) <= seen && forall n :: n != name ==> Of(hs, n) == Of(before, n)
      ensures Of(hs, name) == old(hs)[i] && (!created ==> hs == old(hs))
    {
      ForgetKeeps(hs, i);
      IndexOfNamed(hs, i);
      Forget(i, created);
    }

    /** The part of saving that needs a new version. */
    method SaveNew(ghost before: seq<History>, name: string, i: nat, created: bool, v: Version, content: Bytes)
      returns (ok: bool)
      requires Valid() && i < |hs| && i == IndexIn(before, name) && (created ==> i == |hs| - 1 && hs[i].versions == [])
      requires created ==> i == |before|
      requires hs == if i < |before| then before else before + [Empty(name)]
      requires v.digest == sha(content) && v.size == |content| && Previewable(content)
      requires !NewestIs(hs[i].versions, v.digest) && FreshId(hs[i].versions, v.id)
      modifies this`hs, this`clock, this`seen
      ensures Valid() && old(seen) <= seen && forall n :: n != name ==> Of(hs, n) == Of(before, n)
      ensures OnlyAt(before, hs, name)
      ensures ok ==> Of(hs, name).versions == Trim(Of(before, name).versions + [v])
      ensures !ok ==> Of(hs, name) == Of(before, name) || Of(hs, name) == With(sha, Of(before, name), content)
      ensures NoFaults() && Injective(sha) ==> (ok <==> Accepts(text, before, name, v))
    {
      OpenedIs(before, name, hs, i);
      AcceptsIs(text, before, name, hs, i, v);
      ghost var entry := hs;
      ok := Record(i, v, content);
      assert hs == entry[i := hs[i]];
      ChangedIs(entry, hs, i);
      if !ok {
        Abandon(before, name, i, created);
      }
    }

    /** saveArtifactVersionDocument. The history becomes what Recorded says, the others
        stay as they are, and a save that fails changes no manifest. */
    method Save(name: string, content: Bytes, id: string) returns (saved: Option<Version>)
      requires Valid() && FreshId(Of(hs, name).versions, id) && Previewable(content)
      modifies this`hs, this`clock, this`seen
      ensures Valid() && old(seen) <= seen
      ensures forall n :: n != name ==> Of(hs, n) == Of(old(hs), n)
      ensures OnlyAt(old(hs), hs, name)
      ensures saved.None? ==> Of(hs, name) == Of(old(hs), name) || Of(hs, name) == With(sha, Of(old(hs), name), content)
      ensures saved.Some? ==>
        Of(hs, name).versions == Recorded(Of(old(hs), name).versions, Version(id, sha(content), |content|)) &&
        NewestIs(Of(hs, name).versions, sha(content)) && saved.value.digest == sha(content)
      ensures NoFaults() && Injective(sha) ==> (saved.Some? <==> Saves(sha, text, old(hs), name, content, id))
    {
      var at, created := Open(name);
      if at.None? {
        return None;
      }
      var i := at.value;
      OpenedIs(old(hs), name, hs, i);
      saved := SaveOpened(old(hs), name, i, created, content, id);
    }

    /** The same, once its directory is there. */
    method SaveOpened(ghost before: seq<History>, name: string, i: nat, created: bool, content: Bytes, id: string)
      returns (saved: Option<Version>)
      requires Valid() && i < |hs| && i == IndexIn(before, name) && (created ==> i == |hs| - 1 && hs[i].versions == [])
      requires created ==> i == |before|
      requires hs == if i < |before| then before else before + [Empty(name)]
      requires FreshId(hs[i].versions, id) && Previewable(content)
      requires hs[i] == Of(before, name) && forall n :: Of(hs, n) == Of(before, n)
      modifies this`hs, this`clock, this`seen
      ensures Valid() && old(seen) <= seen && forall n :: n != name ==> Of(hs, n) == Of(before, n)
      ensures OnlyAt(before, hs, name)
      ensures saved.None? ==> Of(hs, name) == Of(before, name) || Of(hs, name) == With(sha, Of(before, name), content)
      ensures saved.Some? ==>
        Of(hs, name).versions == Recorded(Of(before, name).versions, Version(id, sha(content), |content|)) &&
        NewestIs(Of(hs, name).versions, sha(content)) && saved.value.digest == sha(content)
      ensures NoFaults() && Injective(sha) ==> (saved.Some? <==> Saves(sha, text, before, name, content, id))
    {
      var loadFault := Try();
      if loadFault || !Loads(hs[i]) {
        Abandon(before, name, i, created);
        return None;
      }
      var v := Version(id, sha(content), |content|);
      if NewestIs(hs[i].versions, v.digest) {
        return Some(hs[i].versions[|hs[i].versions| - 1]);
      }
      var ok := SaveNew(before, name, i, created, v, content);
      if !ok {
        return None;
      }
      RecordingOrders(Of(before, name).versions, v);
      return Some(v);
    }

    /** readArtifactVersionForScope: the manifest, then the content of the version with
        this ID, which has to be text with the recorded digest and size. */
    method ReadVersion(name: string, id: string) returns (content: Option<Bytes>)
      requires Valid()
      modifies this`clock
      ensures content.Some? ==> HasVersion(Of(hs, name).versions, id, sha(content.value)) &&
                                Previewable(content.value) && Legible(name)
      ensures NoFaults() ==> (content.Some? <==> HasId(Of(hs, name).versions, id) && Legible(name))
    {
      var h := Of(hs, name);
      if !Loads(h) {
        return None;
      }
      if IndexIn(hs, name) < |hs| { assert Sound(sha, hs[IndexIn(hs, name)]); }
      var i := 0;
      while i < |h.versions|
        invariant 0 <= i <= |h.versions|
        invariant forall k :: 0 <= k < i ==> h.versions[k].id != id
      {
        if h.versions[i].id == id {
          var v := h.versions[i];
          assert v in h.versions;
          var fault := Try();
          var data := h.contents[v.digest];
          if fault || sha(data) != v.digest || |data| != v.size || !Previewable(data) {
            return None;
          }
          return Some(data);
        }
        i := i + 1;
      }
      return None;
    }

    /** readArtifactContentAt. */
    method ReadCurrent(name: string) returns (r: Read)
      modifies this`clock
      ensures r == Reading(files, name) || r == Unfit
      ensures NoFaults() ==> r == Reading(files, name)
    {
      var fault := Try();
      if fault {
        return Unfit;
      }
      return Reading(files, name);
    }

    /** SaveArtifactVersion, as a restore begins with it: what can be read becomes the
        newest version; that there is nothing to read is no error, anything else is. */
    method Preserve(name: string, first: string) returns (ok: bool)
      requires Valid() && FreshId(Of(hs, name).versions, first)
      modifies this`hs, this`clock, this`seen
      ensures Valid() && old(seen) <= seen && OnlyAt(old(hs), hs, name)
      ensures ok ==> !Reading(files, name).Unfit? &&
                     Of(hs, name).versions == Preserved(sha, Of(old(hs), name).versions, Reading(files, name), first)
      ensures ok && Reading(files, name).Got? ==> NewestIs(Of(hs, name).versions, sha(Reading(files, name).content))
      ensures NoFaults() && Injective(sha) ==>
                (ok <==> MayPreserve(sha, text, old(hs), name, Reading(files, name), first))
    {
      var current := ReadCurrent(name);
      match current {
        case Missing => return true;
        case Unfit => return false;
        case Got(content) =>
          var saved := Save(name, content, first);
          return saved.Some?;
      }
    }

    /** Reads back what was restored, and records it. */
    method RecordBack(name: string, ghost id: string, second: string) returns (ok: bool)
      requires Valid() && FreshId(Of(hs, name).versions, second) && Legible(name)
      requires name in files && files[name].File? && Previewable(files[name].content)
      requires HasVersion(Of(hs, name).versions, id, sha(files[name].content))
      modifies this`hs, this`clock, this`seen
      ensures Valid() && old(seen) <= seen
      ensures ok ==> Of(hs, name).versions ==
                     Recorded(Of(old(hs), name).versions, Now(sha, files, name, second)) &&
                     NewestIs(Of(hs, name).versions, sha(files[name].content))
      ensures NoFaults() && Injective(sha) ==>
                (ok <==> MayRecord(sha, text, old(hs), Of(old(hs), name).versions, files, name, second))
    {
      var back := ReadCurrent(name);
      if !back.Got? {
        return false;
      }
      ListedIsAccepted(sha, text, hs, name, id, back.content, second);
      var recorded := Save(name, back.content, second);
      return recorded.Some?;
    }

    /** The stored version is written over the artifact and recorded. */
    method Replace(name: string, id: string, second: string) returns (ok: bool, written: bool)
      requires Valid() && FreshId(Of(hs, name).versions, second)
      modifies this`hs, this`files, this`clock, this`seen
      ensures Valid() && old(seen) <= seen && (ok ==> written)
      ensures !written ==> files == old(files)
      ensures written ==> Wrote(old(files), files, name) &&
                          HasVersion(Of(old(hs), name).versions, id, sha(files[name].content))
      ensures ok ==> Of(hs, name).versions ==
                     Recorded(Of(old(hs), name).versions, Now(sha, files, name, second)) &&
                     NewestIs(Of(hs, name).versions, sha(files[name].content))
      ensures NoFaults() ==>
                (written <==> HasId(Of(old(hs), name).versions, id) && Legible(name) && Replaceable(old(files), name))
      ensures NoFaults() && Injective(sha) && written ==>
                (ok <==> MayRecord(sha, text, old(hs), Of(old(hs), name).versions, files, name, second))
    {
      var content := ReadVersion(name, id);
      if content.None? || !Replaceable(files, name) {
        return false, false;
      }
      var writeFault := Try();
      if writeFault {
        return false, false;
      }
      files := files[name := File(content.value)];
      ok := RecordBack(name, id, second);
      return ok, true;
    }

    /** beginArtifactRestore, given which chats of the project are active. */
    method Begin(active: seq<bool>) returns (ok: bool)
      modifies this`restoring
      ensures ok <==> !old(restoring) && Idle(active)
      ensures restoring == (ok || old(restoring))
    {
      if restoring {
        return false;
      }
      var i := 0;
      while i < |active|
        invariant 0 <= i <= |active| && restoring == old(restoring)
        invariant forall k :: 0 <= k < i ==> !active[k]
      {
        if active[i] {
          return false;
        }
        i := i + 1;
      }
      restoring := true;
      return true;
    }

    /** restoreArtifactVersionForScope: preserve what is there, then replace it, then
        record the result. On success the restored content is the newest version and
        the replaced content is still listed. Without faults, the version is written
        back exactly if no restore and no chat is at work, the current content can be
        preserved, the version is then still there, and the target is no link; and
        whether a restore that writes also records does not depend on the budget. */
    method Restore(name: string, id: string, first: string, second: string, active: seq<bool>)
      returns (ok: bool, written: bool)
      requires Valid() && FreshId(Of(hs, name).versions, first) && FreshId(Of(hs, name).versions, second)
      requires first != second && id != first
      modifies this
      ensures Valid() && old(seen) <= seen && (ok ==> written) && restoring == old(restoring)
      ensures !written ==> files == old(files)
      ensures written ==> Wrote(old(files), files, name) &&
                          HasVersion(Of(old(hs), name).versions, id, sha(files[name].content))
      ensures ok ==> NewestIs(Of(hs, name).versions, sha(files[name].content))
      ensures ok && Reading(old(files), name).Got? ==>
                Refers(Of(hs, name).versions, sha(Reading(old(files), name).content))
      ensures NoFaults() && Injective(sha) ==>
                (written <==> !old(restoring) && Idle(active) &&
                              Restores(sha, text, old(hs), old(files), name, id, first))
      ensures NoFaults() && Injective(sha) && written ==>
                (ok <==> MayRecord(sha, text, old(hs),
                                   Preserved(sha, Of(old(hs), name).versions, Reading(old(files), name), first),
                                   files, name, second))
    {
      var began := Begin(active);
      if !began {
        return false, false;
      }
      ok, written := RestoreBegun(name, id, first, second);
      restoring := false;
    }

    /** The same, once no restore and no chat is in the way. */
    method RestoreBegun(name: string, id: string, first: string, second: string) returns (ok: bool, written: bool)
      requires Valid() && FreshId(Of(hs, name).versions, first) && FreshId(Of(hs, name).versions, second)
      requires first != second && id != first
      modifies this`hs, this`files, this`clock, this`seen
      ensures Valid() && old(seen) <= seen && (ok ==> written)
      ensures !written ==> files == old(files)
      ensures written ==> Wrote(old(files), files, name) &&
                          HasVersion(Of(old(hs), name).versions, id, sha(files[name].content))
      ensures ok ==> NewestIs(Of(hs, name).versions, sha(files[name].content))
      ensures ok && Reading(old(files), name).Got? ==>
                Refers(Of(hs, name).versions, sha(Reading(old(files), name).content))
      ensures NoFaults() && Injective(sha) ==>
                (written <==> Restores(sha, text, old(hs), old(files), name, id, first))
      ensures NoFaults() && Injective(sha) && written ==>
                (ok <==> MayRecord(sha, text, old(hs),
                                   Preserved(sha, Of(old(hs), name).versions, Reading(old(files), name), first),
                                   files, name, second))
    {
      ghost var current := Reading(files, name);
      ok := Preserve(name, first);
      if !ok {
        return false, false;
      }
      ghost var preserved := Of(hs, name).versions;
      ghost var between := hs;
      PreservedIds(sha, Of(old(hs), name).versions, current, first, second);
      ok, written := Replace(name, id, second);
      if written {
        PreservedHas(sha, Of(old(hs), name).versions, current, first, id, sha(files[name].content));
        RecordsAlike(sha, text, old(hs), between, preserved, files, name, second);
      }
      if ok && current.Got? { NewestSurvives(preserved, Now(sha, files, name, second)); }
    }
  }

  /** An artifact whose name has a control character is saved once. After that its
      manifest cannot be read, and nothing of any other artifact can be saved. */
  method IllegibleNameBlocks(name: string, other: string, a: Bytes, b: Bytes, sha: Bytes -> string)
    returns (first: Option<Version>, blocked: Option<Version>)
    requires !Legible(name) && name != other && Previewable(a) && Previewable(b) && Injective(sha)
    ensures first.Some? && blocked.None?
  {
    var text := (_, _) => 0;
    var store := new VersionStore(map[], sha, text, _ => false);
    FirstIsAccepted(text, name, Version("1", sha(a), |a|));
    first := store.Save(name, a, "1");
    IllegibleBlocks(text, store.hs, name, other, Version("2", sha(b), |b|));
    blocked := store.Save(other, b, "2");
  }

  /** So it is in every store that has such a history. */
  lemma IllegibleBlocks(text: (string, seq<Version>) -> nat, hs: seq<History>, name: string, other: string, v: Version)
    requires Of(hs, name).versions != [] && !Legible(name) && name != other
    ensures !Accepts(text, hs, other, v) && !Loads(Of(hs, name))
  {
    var hs' := if IndexIn(hs, other) < |hs| then hs else hs + [Empty(other)];
    assert hs'[IndexIn(hs, name)] == Of(hs, name);
  }

  lemma FirstIsAccepted(text: (string, seq<Version>) -> nat, name: string, v: Version)
    requires v.size <= PREVIEW_BYTES && text(name, [v]) <= MANIFEST_BYTES
    ensures Accepts(text, [], name, v)
  {
    var hs := [Empty(name)];
    assert hs[..0] == [] && hs[1..] == [] && Others(hs, 0) == 0;
    assert [] + [v] == [v] && Trim([v]) == [v] && [v][1..] == [];
  }

  predicate Idle(active: seq<bool>) { forall k :: 0 <= k < |active| ==> !active[k] }

  /** At most the named history, if there was one, is different. */
  ghost predicate OnlyAt(before: seq<History>, hs: seq<History>, name: string) {
    var i := IndexIn(before, name);
    i < |before| ==> |hs| == |before| && hs[i].name == name && hs == before[i := hs[i]]
  }

  /** Text was written to the artifact, and nothing else. */
  predicate Wrote(before: map<string, Entry>, files: map<string, Entry>, name: string) {
    name in files && files[name].File? && Previewable(files[name].content) && files == before[name := files[name]]
  }

  /** The version that records the artifact as it is. */
  function Now(sha: Bytes -> string, files: map<string, Entry>, name: string, id: string): Version
    requires name in files && files[name].File?
  {
    Version(id, sha(files[name].content), |files[name].content|)
  }

  /** Content that is listed already is recorded exactly if it is the newest, or there
      are not too many histories, all of them can be read, and the manifest is short. */
  ghost predicate MayRecord(sha: Bytes -> string, text: (string, seq<Version>) -> nat, hs: seq<History>,
                            vs: seq<Version>, files: map<string, Entry>, name: string, second: string)
    requires name in files && files[name].File?
  {
    NewestIs(vs, sha(files[name].content)) ||
    (|hs| <= HISTORIES && OthersLoad(hs, IndexIn(hs, name)) &&
     text(name, Trim(vs + [Now(sha, files, name, second)])) <= MANIFEST_BYTES)
  }

  lemma RecordsAlike(sha: Bytes -> string, text: (string, seq<Version>) -> nat, before: seq<History>,
                     hs: seq<History>, vs: seq<Version>, files: map<string, Entry>, name: string, second: string)
    requires name in files && files[name].File? && Named(before)
    requires OnlyAt(before, hs, name) && IndexIn(before, name) < |before|
    ensures MayRecord(sha, text, before, vs, files, name, second) <==> MayRecord(sha, text, hs, vs, files, name, second)
  {
    var i := IndexIn(before, name);
    IndexAfterUpdate(before, i, hs[i], name);
  }

  /** A restore that begins gets as far as preserving the current content. */
  ghost predicate MayPreserve(sha: Bytes -> string, text: (string, seq<Version>) -> nat, hs: seq<History>, name: string,
                              current: Read, first: string)
  {
    !current.Unfit? && (current.Got? ==> Saves(sha, text, hs, name, current.content, first))
  }

  /** And as far as writing the version back. */
  ghost predicate Restores(sha: Bytes -> string, text: (string, seq<Version>) -> nat, hs: seq<History>,
                           files: map<string, Entry>, name: string, id: string, first: string)
  {
    MayPreserve(sha, text, hs, name, Reading(files, name), first) && Replaceable(files, name) && Legible(name) &&
    HasId(Preserved(sha, Of(hs, name).versions, Reading(files, name), first), id)
  }

  ghost predicate HasId(vs: seq<Version>, id: string) { exists k :: 0 <= k < |vs| && vs[k].id == id }

  ghost predicate HasVersion(vs: seq<Version>, id: string, digest: string) {
    exists k :: 0 <= k < |vs| && vs[k].id == id && vs[k].digest == digest
  }

  /** A save that no fault interrupts would succeed. */
  ghost predicate Saves(sha: Bytes -> string, text: (string, seq<Version>) -> nat, hs: seq<History>, name: string,
                        content: Bytes, id: string)
  {
    Loads(Of(hs, name)) &&
    (NewestIs(Of(hs, name).versions, sha(content)) ||
     Accepts(text, hs, name, Version(id, sha(content), |content|)))
  }

  /** The manifest once the current content, if any, has been preserved. */
  function Preserved(sha: Bytes -> string, vs: seq<Version>, current: Read, id: string): seq<Version> {
    if current.Got? then Recorded(vs, Version(id, sha(current.content), |current.content|)) else vs
  }

  lemma RecordedFrom(vs: seq<Version>, v: Version, k: nat)
    requires k < |Recorded(vs, v)|
    ensures Recorded(vs, v)[k] == v || exists j :: 0 <= j < |vs| && vs[j] == Recorded(vs, v)[k]
  {
  }

  // ------------------------------------------------- content that is listed already

  /** Equal content has equal size. */
  ghost predicate SizedAlike(vs: seq<Version>) {
    forall v, w :: v in vs && w in vs && v.digest == w.digest ==> v.size == w.size
  }

  /** A digest that is counted already costs nothing more; one that is not costs its
      size, once. */
  lemma {:induction false} CountedBefore(vs: seq<Version>, counted: set<string>, v: Version)
    requires SizedAlike([v] + vs)
    ensures Distinct(vs, counted) <= v.size + Distinct(vs, counted + {v.digest})
  {
    if vs != [] {
      assert vs[0] in [v] + vs && v in [v] + vs;
      if vs[0].digest == v.digest {
        assert counted + {vs[0].digest} == counted + {v.digest} + {vs[0].digest};
      } else {
        assert forall w :: w in [v] + vs[1..] ==> w in [v] + vs;
        CountedBefore(vs[1..], counted + {vs[0].digest}, v);
        assert counted + {vs[0].digest} + {v.digest} == counted + {v.digest} + {vs[0].digest};
      }
    }
  }

  lemma {:induction false} ListedCostsNothing(vs: seq<Version>, counted: set<string>, v: Version)
    requires v.digest in counted || Refers(vs, v.digest)
    ensures Distinct(vs + [v], counted) == Distinct(vs, counted)
  {
    if vs == [] {
      assert vs + [v] == [v] && [v][1..] == [];
    } else {
      assert (vs + [v])[1..] == vs[1..] + [v];
      if v.digest !in counted && vs[0].digest != v.digest {
        var w :| w in vs && w.digest == v.digest;
        assert w in vs[1..];
      }
      ListedCostsNothing(vs[1..], counted + {vs[0].digest}, v);
    }
  }

  lemma OldestIsNoLess(vs: seq<Version>)
    requires vs != [] && SizedAlike(vs)
    ensures Distinct(vs[1..], {}) <= Distinct(vs, {})
  {
    assert [vs[0]] + vs[1..] == vs;
    CountedBefore(vs[1..], {}, vs[0]);
  }

  lemma BackedIsSizedAlike(sha: Bytes -> string, vs: seq<Version>, contents: map<string, Bytes>, v: Version)
    requires Backed(sha, vs, contents) && v.digest in contents && |contents[v.digest]| == v.size
    ensures SizedAlike(vs + [v])
  {
  }

  /** Recording content that is listed already takes no more room. */
  lemma TrimCostsNothing(vs: seq<Version>, v: Version)
    requires |vs| <= PER_ARTIFACT && SizedAlike(vs + [v]) && Refers(vs, v.digest)
    ensures Distinct(Trim(vs + [v]), {}) <= Distinct(vs, {})
  {
    ListedCostsNothing(vs, {}, v);
    if |vs| == PER_ARTIFACT { OldestIsNoLess(vs + [v]); }
  }

  lemma {:induction false} TotalOfOne(hs: seq<History>, i: nat)
    requires i < |hs|
    ensures Total(hs) == Others(hs, i) + Distinct(hs[i].versions, {})
  {
    TotalSplits(hs, i, hs[i]);
    assert hs[i := hs[i]] == hs;
  }

  lemma ListedIsAccepted(sha: Bytes -> string, text: (string, seq<Version>) -> nat, hs: seq<History>, name: string,
                         id: string, content: Bytes, second: string)
    requires AllSound(sha, hs) && HasVersion(Of(hs, name).versions, id, sha(content)) && Legible(name)
    ensures var vs, v := Of(hs, name).versions, Version(second, sha(content), |content|);
            Injective(sha) ==>
              (Saves(sha, text, hs, name, content, second) <==>
                NewestIs(vs, sha(content)) ||
                (|hs| <= HISTORIES && OthersLoad(hs, IndexIn(hs, name)) && text(name, Trim(vs + [v])) <= MANIFEST_BYTES))
  {
    var i := IndexIn(hs, name);
    AcceptsIs(text, hs, name, hs, i, Version(second, sha(content), |content|));
    if Injective(sha) { ListedIsInBudget(sha, text, hs, i, id, content, second); }
  }

  lemma ListedIsInBudget(sha: Bytes -> string, text: (string, seq<Version>) -> nat, hs: seq<History>, i: nat,
                         id: string, content: Bytes, second: string)
    requires AllSound(sha, hs) && i < |hs| && HasVersion(hs[i].versions, id, sha(content)) && Injective(sha)
    ensures var v := Version(second, sha(content), |content|);
            InBudget(text, hs, i, v) <==>
              |hs| <= HISTORIES && OthersLoad(hs, i) && text(hs[i].name, Trim(hs[i].versions + [v])) <= MANIFEST_BYTES
  {
    var v := Version(second, sha(content), |content|);
    ListedIsStored(sha, hs[i], id, content);
    BackedIsSizedAlike(sha, hs[i].versions, hs[i].contents, v);
    TrimCostsNothing(hs[i].versions, v);
    TotalOfOne(hs, i);
  }

  lemma ListedIsStored(sha: Bytes -> string, h: History, id: string, content: Bytes)
    requires Sound(sha, h) && HasVersion(h.versions, id, sha(content)) && Injective(sha)
    ensures Refers(h.versions, sha(content)) && sha(content) in h.contents && h.contents[sha(content)] == content
  {
    var k :| 0 <= k < |h.versions| && h.versions[k].digest == sha(content);
    assert h.versions[k] in h.versions;
  }

  /** Whether the version is still there once the current content was preserved: the
      one listed version that can be lost is the oldest of a full manifest, when the
      current content was not the newest version already. */
  lemma KeptExactly(sha: Bytes -> string, vs: seq<Version>, current: Read, first: string, k: nat)
    requires |vs| <= PER_ARTIFACT && DistinctIds(vs) && k < |vs| && FreshId(vs, first)
    ensures HasId(Preserved(sha, vs, current, first), vs[k].id) <==>
            !(current.Got? && |vs| == PER_ARTIFACT && k == 0 && !NewestIs(vs, sha(current.content)))
  {
    var id := vs[k].id;
    if current.Got? {
      var v := Version(first, sha(current.content), |current.content|);
      var r := Recorded(vs, v);
      SurvivesExactly(vs, v, k);
      if vs[k] in r {
        var j :| 0 <= j < |r| && r[j] == vs[k];
        assert r[j].id == id;
      }
      if HasId(r, id) {
        var j :| 0 <= j < |r| && r[j].id == id;
        RecordedFrom(vs, v, j);
        assert r[j] == vs[k];
      }
    }
  }

  /** Whether a restore that begins writes listed version `k` back (Restore's condition),
      told before the call: the manifest can be read; and there is no file, or a regular
      one with text of at most 2 MiB that is the newest version already or that the
      project has room for, in which case the oldest version of a full manifest is lost. */
  lemma RestorableExactly(sha: Bytes -> string, text: (string, seq<Version>) -> nat, hs: seq<History>,
                          files: map<string, Entry>, name: string, first: string, k: nat)
    requires AllSound(sha, hs) && k < |Of(hs, name).versions| && FreshId(Of(hs, name).versions, first)
    ensures var vs := Of(hs, name).versions;
            Restores(sha, text, hs, files, name, vs[k].id, first) <==>
            Legible(name) &&
            (name !in files ||
             (files[name].File? && Previewable(files[name].content) &&
              (NewestIs(vs, sha(files[name].content)) ||
               (Accepts(text, hs, name, Now(sha, files, name, first)) && !(|vs| == PER_ARTIFACT && k == 0)))))
  {
    assert Sound(sha, hs[IndexIn(hs, name)]);
    KeptExactly(sha, Of(hs, name).versions, Reading(files, name), first, k);
    if name in files && files[name].File? {
      SavedExactly(sha, text, hs, name, files[name].content, first);
    }
  }

  lemma SavedExactly(sha: Bytes -> string, text: (string, seq<Version>) -> nat, hs: seq<History>, name: string,
                     content: Bytes, first: string)
    requires Of(hs, name).versions != []
    ensures MayPreserve(sha, text, hs, name, Seen(content), first) <==>
            (Previewable(content) && Loads(Of(hs, name)) &&
             (NewestIs(Of(hs, name).versions, sha(content)) ||
              Accepts(text, hs, name, Version(first, sha(content), |content|))))
  {
  }

  /** One byte too many in the current file, and no version can be restored. */
  lemma OversizeBlocksRestoring(sha: Bytes -> string, text: (string, seq<Version>) -> nat, hs: seq<History>,
                                files: map<string, Entry>, name: string, id: string, first: string)
    requires name in files && files[name].File? && |files[name].content| == PREVIEW_BYTES + 1
    ensures !Restores(sha, text, hs, files, name, id, first)
  {
  }

  lemma PreservedIds(sha: Bytes -> string, vs: seq<Version>, current: Read, first: string, second: string)
    requires FreshId(vs, second) && first != second
    ensures FreshId(Preserved(sha, vs, current, first), second)
  {
  }

  lemma PreservedHas(sha: Bytes -> string, vs: seq<Version>, current: Read, first: string, id: string, digest: string)
    requires HasVersion(Preserved(sha, vs, current, first), id, digest) && id != first
    ensures HasVersion(vs, id, digest)
  {
  }

  lemma NewestSurvives(vs: seq<Version>, v: Version)
    requires vs != []
    ensures Refers(Recorded(vs, v), vs[|vs| - 1].digest)
  {
    var newest := vs[|vs| - 1];
    if NewestIs(vs, v.digest) {
      assert newest in vs;
    } else {
      var kept := Trim(vs + [v]);
      TrimIsNewest(vs, v, |kept| - 2);
      assert kept[|kept| - 2] == newest;
      assert newest in kept;
    }
  }

  /** Whether the project has room for the version in the named history. */
  ghost predicate Accepts(text: (string, seq<Version>) -> nat, hs: seq<History>, name: string, v: Version) {
    var hs' := if IndexIn(hs, name) < |hs| then hs else hs + [Empty(name)];
    IndexIn(hs, name) < |hs'| && InBudget(text, hs', IndexIn(hs, name), v)
  }

  lemma AcceptsIs(text: (string, seq<Version>) -> nat, before: seq<History>, name: string, hs: seq<History>, i: nat,
                  v: Version)
    requires i < |hs| && i == IndexIn(before, name)
    requires hs == if i < |before| then before else before + [Empty(name)]
    ensures Accepts(text, before, name, v) <==> InBudget(text, hs, i, v)
  {
  }

  lemma {:induction false} AppendedIs(hs: seq<History>, name: string, n: string)
    requires IndexIn(hs, name) == |hs|
    ensures Of(hs + [Empty(name)], n) == Of(hs, n)
  {
    if hs != [] {
      assert (hs + [Empty(name)])[1..] == hs[1..] + [Empty(name)];
      assert IndexIn(hs[1..], name) == |hs[1..]|;
      AppendedIs(hs[1..], name, n);
    }
  }

  lemma {:induction false} IndexAfterUpdate(hs: seq<History>, i: nat, h: History, n: string)
    requires i < |hs| && h.name == hs[i].name
    ensures IndexIn(hs[i := h], n) == IndexIn(hs, n)
  {
    if i > 0 {
      assert hs[i := h][1..] == hs[1..][i - 1 := h];
      IndexAfterUpdate(hs[1..], i - 1, h, n);
    }
  }

  lemma {:induction false} IndexOfNamed(hs: seq<History>, i: nat)
    requires Named(hs) && i < |hs|
    ensures IndexIn(hs, hs[i].name) == i
  {
  }

  lemma UpdatedIs(hs: seq<History>, i: nat, h: History)
    requires Named(hs) && i < |hs| && h.name == hs[i].name
    ensures Of(hs[i := h], h.name) == h && forall n :: n != h.name ==> Of(hs[i := h], n) == Of(hs, n)
  {
    IndexOfNamed(hs, i);
    forall n ensures IndexIn(hs[i := h], n) == IndexIn(hs, n) { IndexAfterUpdate(hs, i, h, n); }
  }

  lemma ChangedIs(hs: seq<History>, hs': seq<History>, i: nat)
    requires Named(hs) && i < |hs| == |hs'| && hs'[i].name == hs[i].name && hs' == hs[i := hs'[i]]
    ensures Of(hs', hs[i].name) == hs'[i] && forall n :: n != hs[i].name ==> Of(hs', n) == Of(hs, n)
  {
    UpdatedIs(hs, i, hs'[i]);
  }

  lemma OpenedIs(before: seq<History>, name: string, hs: seq<History>, i: nat)
    requires i < |hs| && i == IndexIn(before, name)
    requires hs == if i < |before| then before else before + [Empty(name)]
    ensures hs[i] == Of(before, name) && forall n :: Of(hs, n) == Of(before, n)
  {
    if i == |before| {
      forall n ensures Of(hs, n) == Of(before, n) { AppendedIs(before, name, n); }
    }
  }

  /** Taking back an empty directory at the end changes no history. */
  lemma ForgetKeeps(hs: seq<History>, i: nat)
    requires Named(hs) && i < |hs|
    ensures i == |hs| - 1 && hs[i] == Empty(hs[i].name) ==>
              Of(hs[..i], hs[i].name) == hs[i] && forall n :: n != hs[i].name ==> Of(hs[..i], n) == Of(hs, n)
  {
  }

  lemma OthersSame(hs: seq<History>, i: nat, h: History)
    requires i < |hs|
    ensures Others(hs[i := h], i) == Others(hs, i)
  {
  }

  /** Whether the project has room for the version, can be surveyed, and the manifest
      stays short enough. */
  ghost predicate InBudget(text: (string, seq<Version>) -> nat, hs: seq<History>, i: nat, v: Version)
    requires i < |hs|
  {
    |hs| <= HISTORIES && OthersLoad(hs, i) &&
    Others(hs, i) + Distinct(Trim(hs[i].versions + [v]), {}) <= PROJECT_BYTES &&
    text(hs[i].name, Trim(hs[i].versions + [v])) <= MANIFEST_BYTES
  }

  /** A content file that was not there before is one that no version refers to. */
  lemma WroteUnlisted(sha: Bytes -> string, vs: seq<Version>, before: map<string, Bytes>, digest: string)
    requires Backed(sha, vs, before)
    ensures digest !in before ==> forall v :: v in vs ==> v.digest != digest
  {
  }

  ghost predicate Refers(vs: seq<Version>, digest: string) { exists v :: v in vs && v.digest == digest }

  function Empty(name: string): History { History(name, [], map[]) }

  function With(sha: Bytes -> string, h: History, content: Bytes): History {
    h.(contents := h.contents[sha(content) := content])
  }

  lemma WithoutUndoes(sha: Bytes -> string, hs: seq<History>, i: nat, content: Bytes)
    requires i < |hs| && sha(content) !in hs[i].contents
    ensures Without(With(sha, hs[i], content), sha(content)) == hs[i]
    ensures hs[i := With(sha, hs[i], content)][i := hs[i]] == hs
  {
    assert With(sha, hs[i], content).contents - {sha(content)} == hs[i].contents;
  }

  function Without(h: History, digest: string): History { h.(contents := h.contents - {digest}) }

  function Of(hs: seq<History>, name: string): History {
    if IndexIn(hs, name) < |hs| then hs[IndexIn(hs, name)] else Empty(name)
  }

  lemma NewDirKeeps(sha: Bytes -> string, hs: seq<History>, name: string)
    requires AllSound(sha, hs) && IndexIn(hs, name) == |hs|
    ensures AllSound(sha, hs + [Empty(name)]) && Total(hs + [Empty(name)]) == Total(hs)
  {
  }

  lemma DropLastKeeps(sha: Bytes -> string, hs: seq<History>)
    requires AllSound(sha, hs) && hs != []
    ensures AllSound(sha, hs[..|hs| - 1])
  {
  }

  method InUse(vs: seq<Version>, digest: string) returns (found: bool)
    ensures found <==> Refers(vs, digest)
  {
    var i := 0;
    while i < |vs|
      invariant 0 <= i <= |vs|
      invariant forall k :: 0 <= k < i ==> vs[k].digest != digest
    {
      if vs[i].digest == digest {
        return true;
      }
      i := i + 1;
    }
    return false;
  }

  function IndexIn(hs: seq<History>, name: string): (i: nat)
    ensures i <= |hs| && (i < |hs| ==> hs[i].name == name)
    ensures forall j :: 0 <= j < i ==> hs[j].name != name
  {
    if hs == [] || hs[0].name == name then 0 else 1 + IndexIn(hs[1..], name)
  }

  /** The loop that counts each digest once. */
  method DistinctBytes(vs: seq<Version>) returns (sum: nat)
    ensures sum == Distinct(vs, {})
  {
    var counted: set<string>, i := {}, 0;
    sum := 0;
    while i < |vs|
      invariant 0 <= i <= |vs|
      invariant sum + Distinct(vs[i..], counted) == Distinct(vs, {})
    {
      assert vs[i..][1..] == vs[i + 1..];
      if vs[i].digest !in counted {
        sum := sum + vs[i].size;
      }
      counted := counted + {vs[i].digest};
      i := i + 1;
    }
  }
}
