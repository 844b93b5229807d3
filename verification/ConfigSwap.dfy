/** Replacing the live configuration tree: the last steps of an import
    (internal/studio/data_archive.go) and the restoring of a snapshot
    (internal/studio/backup_management.go).

    The disk is the directory that holds the live tree and its snapshots. Every call
    may fail, and before every call other processes may have changed anything but
    the trees at stake; both are fixed but arbitrary functions of the time. All
    states the directory goes through are recorded, so a claim about every recorded
    state is a claim about a crash at any point. */
module ConfigSwap {
  import opened Text
  import opened Wrappers

  const PRE_IMPORT := ".gokin-studio.pre-import-"
  const PRE_RESTORE := ".gokin-studio.pre-restore-"
  const CLAIM := ".gokin-studio.pre-restore-claim-"
  const ATTEMPTS: nat := 8

  // A file system object, by identity and content.
  datatype Node = Dir(inode: nat, files: map<string, string>) | Other(inode: nat)

  type Names = map<string, Node>

  /** hasSnapshotPrefix. */
  predicate Recognised(name: string) { PRE_IMPORT <= name || PRE_RESTORE <= name }

  /** What ListPreImportBackups shows, and so what a user can find and restore. */
  function Listed(names: Names): set<string> { set n | n in names && Recognised(n) && names[n].Dir? }

  /** validateBackupName. */
  predicate ValidName(name: string) { Recognised(name) && '/' !in name && IndexFrom(name, "..", 0) < 0 }

  predicate Hollow(t: Node) { t.Dir? && t.files == map[] }

  ghost predicate Holds(names: Names, name: string, t: Node) { name in names && names[name] == t }

  /** The tree is at the live name or at a snapshot name. */
  ghost predicate Kept(names: Names, live: string, t: Node) {
    exists n :: Holds(names, n, t) && (n == live || Recognised(n))
  }

  ghost predicate AllKept(names: Names, live: string, precious: set<Node>) {
    forall t :: t in precious ==> Kept(names, live, t)
  }

  ghost predicate Single(names: Names, precious: set<Node>) {
    forall a, b :: a in names && b in names && names[a] == names[b] && names[a] in precious ==> a == b
  }

  ghost predicate Without(names: Names, precious: set<Node>, name: string) {
    name in names ==> names[name] !in precious
  }

  /** The trees at stake are where they were, unchanged and not copied. */
  ghost predicate Spares(before: Names, after: Names, precious: set<Node>) {
    (forall n :: n in before && before[n] in precious ==> Holds(after, n, before[n])) &&
    (forall n :: n in after && after[n] in precious ==> Holds(before, n, after[n]))
  }

  /** The tree at `src` went to `dst`, where no tree at stake was. */
  ghost predicate Moves(before: Names, after: Names, precious: set<Node>, src: string, dst: string) {
    Without(before, precious, dst) && Without(after, precious, src) &&
    (forall n :: n in before && before[n] in precious ==> Holds(after, if n == src then dst else n, before[n]))
  }

  /** Whether rename(2) may replace what is at the new name. */
  predicate Replaceable(names: Names, src: string, dst: string)
    requires src in names
  {
    dst !in names || (names[src].Dir? && Hollow(names[dst])) || (names[src].Other? && names[dst].Other?)
  }

  lemma SparesKeeps(before: Names, after: Names, live: string, precious: set<Node>)
    requires Spares(before, after, precious) && Single(before, precious) && AllKept(before, live, precious)
    ensures Single(after, precious) && AllKept(after, live, precious)
  {
  }

  lemma RenameKeeps(before: Names, live: string, precious: set<Node>, src: string, dst: string)
    requires src in before && src != dst && Replaceable(before, src, dst) && (dst == live || Recognised(dst))
    requires Without(before, precious, dst)
    requires Single(before, precious) && AllKept(before, live, precious)
    ensures var after := (before - {src})[dst := before[src]];
            Single(after, precious) && AllKept(after, live, precious) && Moves(before, after, precious, src, dst)
  {
    var after := (before - {src})[dst := before[src]];
    forall t | t in precious ensures Kept(after, live, t) {
      var n :| Holds(before, n, t) && (n == live || Recognised(n));
      assert Holds(after, if n == src then dst else n, t);
    }
  }

  lemma PrefixExtends(prefix: string, rest: string)
    requires Recognised(prefix)
    ensures Recognised(prefix + rest)
  {
  }

  predicate StartsWithDigit(date: string) { date != "" && '0' <= date[0] <= '9' }

  /** The name of a claim is never that of a dated safety snapshot. */
  lemma ClaimIsNoDate(claim: string, date: string, dated: string)
    requires CLAIM <= claim && StartsWithDigit(date) && PRE_RESTORE + date <= dated
    ensures claim != dated
  {
    assert dated[|PRE_RESTORE|] == (PRE_RESTORE + date)[|PRE_RESTORE|] == date[0];
    assert claim[|PRE_RESTORE|] == CLAIM[|PRE_RESTORE|] == 'c';
  }

  /** A kept directory is at the live name or shown to the user. */
  lemma KeptIsListed(names: Names, live: string, t: Node)
    requires Kept(names, live, t) && t.Dir?
    ensures Holds(names, live, t) || exists n :: n in Listed(names) && names[n] == t
  {
  }

  datatype Look = Present(isDir: bool) | Missing | LookFault

  datatype Try = Try(src: string, dst: string, ok: bool)

  /** Since attempt `n`, the tree to promote could not be renamed to the live name, and
      then the previous live tree could not be renamed back. */
  predicate BothFailed(tried: seq<Try>, n: nat, replacement: string, safety: string, live: string) {
    exists i :: n <= i && i + 1 < |tried| &&
                tried[i] == Try(replacement, live, false) && tried[i + 1] == Try(safety, live, false)
  }

  // path: where the claimed snapshot is; at: where an error says it is, if moved
  datatype Claimed = Claim(path: string) | NoClaim(at: Option<string>)

  datatype Promotion = Promoted | InPlace | Stranded(at: string)

  // liveAt, selectedAt: the paths the error carries; none means the original name
  datatype Outcome = Done(safety: Option<string>) | Failed(liveAt: Option<string>, selectedAt: Option<string>) | BadName

  function PathOf(path: Option<string>, name: string): string { if path.Some? then path.value else name }

  // -------------------------------------------------------------------- disk

  class Disk {
    var names: Names
    var clock: nat
    ghost var seen: seq<Names>
    ghost var tried: seq<Try>
    ghost const precious: set<Node>
    const live: string
    const fails: nat -> bool
    const others: (nat, Names) -> Names
    const draw: nat -> string
    const date: string

    constructor (names: Names, live: string, fails: nat -> bool, others: (nat, Names) -> Names, draw: nat -> string,
                 date: string, ghost precious: set<Node>)
      requires StartsWithDigit(date)
      requires !Recognised(live) && Single(names, precious) && AllKept(names, live, precious)
      requires forall t :: t in precious ==> !Hollow(t)
      requires forall k, ns :: Spares(ns, others(k, ns), precious)
      ensures Valid() && this.names == names && this.live == live && this.precious == precious
    {
      this.names, clock, seen, tried := names, 0, [names], [];
      this.live, this.fails, this.others, this.draw := live, fails, others, draw;
      this.date, this.precious := date, precious;
    }

    /** In no state so far was a tree at stake lost. */
    ghost predicate Valid()
      reads this
    {
      !Recognised(live) && StartsWithDigit(date) && Single(names, precious) && AllKept(names, live, precious) &&
      (forall t :: t in precious ==> !Hollow(t)) &&
      (forall k, ns :: Spares(ns, others(k, ns), precious)) &&
      (forall i :: 0 <= i < |seen| ==> AllKept(seen[i], live, precious))
    }

    /** Time passes, and other processes act, before each call. */
    method Wait() returns (fault: bool)
      requires Valid()
      modifies this
      ensures Valid() && old(seen) <= seen && tried == old(tried) && Spares(old(names), names, precious)
    {
      fault := fails(clock);
      SparesKeeps(names, others(clock, names), live, precious);
      names := others(clock, names);
      clock := clock + 1;
      seen := seen + [names];
    }

    method Rename(src: string, dst: string) returns (ok: bool)
      requires Valid() && src != dst && (dst == live || Recognised(dst))
      requires dst in names && names[dst] in precious ==> names[dst].Dir?
      modifies this
      ensures Valid() && old(seen) <= seen && tried == old(tried) + [Try(src, dst, ok)]
      ensures if ok then Moves(old(names), names, precious, src, dst) else Spares(old(names), names, precious)
    {
      var fault := Wait();
      tried := tried + [Try(src, dst, false)];
      if fault || src !in names || !Replaceable(names, src, dst) {
        return false;
      }
      tried := tried[|tried| - 1 := Try(src, dst, true)];
      RenameKeeps(names, live, precious, src, dst);
      names := (names - {src})[dst := names[src]];
      seen := seen + [names];
      return true;
    }

    /** os.Lstat and os.Stat. */
    method Inspect(name: string) returns (look: Look)
      requires Valid()
      modifies this
      ensures Valid() && old(seen) <= seen && tried == old(tried) && Spares(old(names), names, precious)
      ensures look.Missing? ==> name !in names
      ensures look.Present? ==> name in names && look.isDir == names[name].Dir?
    {
      var fault := Wait();
      if fault {
        return LookFault;
      }
      return if name in names then Present(names[name].Dir?) else Missing;
    }

    /** os.MkdirTemp followed by os.Remove: a name that was free. */
    method FreeName(prefix: string) returns (name: Option<string>)
      requires Valid() && Recognised(prefix)
      modifies this
      ensures Valid() && old(seen) <= seen && tried == old(tried) && Spares(old(names), names, precious)
      ensures name.Some? ==> prefix <= name.value && Recognised(name.value) && name.value !in names &&
                             Without(old(names), precious, name.value)
    {
      name := MakeDir(prefix);
      if name.Some? {
        var removed := RemoveDir(name.value);
        if !removed {
          return None;
        }
      }
    }

    /** os.MkdirTemp. */
    method MakeDir(prefix: string) returns (name: Option<string>)
      requires Valid() && Recognised(prefix)
      modifies this
      ensures Valid() && old(seen) <= seen && tried == old(tried) && Spares(old(names), names, precious)
      ensures name.Some? ==> prefix <= name.value && Recognised(name.value) &&
                             Without(old(names), precious, name.value) && Without(names, precious, name.value)
    {
      var fault := Wait();
      var reserved := prefix + draw(clock);
      PrefixExtends(prefix, draw(clock));
      if fault || reserved in names {
        return None;
      }
      SparesKeeps(names, names[reserved := Dir(0, map[])], live, precious);
      names := names[reserved := Dir(0, map[])];
      seen := seen + [names];
      return Some(reserved);
    }

    /** os.Remove: nothing but an empty directory or something that is none. */
    method RemoveDir(name: string) returns (removed: bool)
      requires Valid() && Without(names, precious, name)
      modifies this
      ensures Valid() && old(seen) <= seen && tried == old(tried) && Spares(old(names), names, precious)
      ensures removed ==> name !in names
    {
      var fault := Wait();
      if fault || name !in names || !(Hollow(names[name]) || names[name].Other?) {
        return false;
      }
      SparesKeeps(names, names - {name}, live, precious);
      names := names - {name};
      seen := seen + [names];
      return true;
    }

    /** The eight attempts shared by moveDirToUniqueSnapshot and claimSnapshotDir. */
    method MoveToFreeName(src: string, prefix: string) returns (moved: Option<string>)
      requires Valid() && Recognised(prefix) && (src == live || Recognised(src))
      modifies this
      ensures Valid() && old(seen) <= seen && old(tried) <= tried
      ensures moved.Some? ==> prefix <= moved.value && Recognised(moved.value) && moved.value != src &&
                              Moves(old(names), names, precious, src, moved.value)
      ensures moved.None? ==> Spares(old(names), names, precious)
    {
      var attempt := 0;
      while attempt < ATTEMPTS
        invariant Valid() && old(seen) <= seen && Spares(old(names), names, precious)
        invariant old(tried) <= tried
      {
        var name := FreeName(prefix);
        if name.None? {
          return None;
        }
        if name.value == src {
          return None;   // a missing name cannot be moved onto itself
        }
        var ok := Rename(src, name.value);
        if ok {
          return name;
        }
        var look := Inspect(name.value);
        if !look.Present? {
          return None;
        }
        attempt := attempt + 1;
      }
      return None;
    }

    /** moveDirToUniqueSnapshot for the live tree; a failed touch is ignored. */
    method MoveLiveAside(prefix: string) returns (moved: Option<string>)
      requires Valid() && Recognised(prefix)
      modifies this
      ensures Valid() && old(seen) <= seen && old(tried) <= tried
      ensures moved.Some? ==> prefix + date <= moved.value && Recognised(moved.value) && moved.value != live &&
                              Moves(old(names), names, precious, live, moved.value)
      ensures moved.None? ==> Spares(old(names), names, precious)
    {
      PrefixExtends(prefix, date);
      moved := MoveToFreeName(live, prefix + date);
      if moved.Some? {
        var ignored := Wait();
      }
    }

    /** returnClaimedSnapshot: back to the original name, or the path where the
        selected tree remains. */
    method ReturnClaim(path: string, original: string, wasDir: bool) returns (left: Option<string>)
      requires Valid() && Recognised(path) && Recognised(original) && path != original
      modifies this
      ensures Valid() && old(seen) <= seen && old(tried) <= tried
      ensures left.None? ==> Moves(old(names), names, precious, path, original)
      ensures left.Some? ==> left.value == path && Spares(old(names), names, precious)
    {
      var look := Inspect(original);
      if !look.Missing? {
        return Some(path);
      }
      var ok := Rename(path, original);
      if !ok {
        return Some(path);
      }
      if wasDir {
        var chmodFault := Wait();
        if !chmodFault {
          var touchFault := Wait();
        }
      }
      return None;
    }

    /** claimSnapshotDir. */
    method ClaimSnapshot(original: string) returns (r: Claimed)
      requires Valid() && Recognised(original)
      modifies this
      ensures Valid() && old(seen) <= seen && old(tried) <= tried
      ensures r.Claim? ==> CLAIM <= r.path && Recognised(r.path) && r.path != original &&
                           Moves(old(names), names, precious, original, r.path)
      ensures r.NoClaim? && r.at.None? ==> Spares(old(names), names, precious)
      ensures r.NoClaim? && r.at.Some? ==> Recognised(r.at.value) && r.at.value != original &&
                                           Moves(old(names), names, precious, original, r.at.value)
    {
      var moved := MoveToFreeName(original, CLAIM);
      if moved.None? {
        return NoClaim(None);
      }
      var path := moved.value;
      var look := Inspect(path);
      if !look.Present? {
        var left := ReturnClaim(path, original, false);
        return NoClaim(left);
      }
      if !look.isDir {
        return Claim(path);
      }
      var fault := Wait();
      if fault {
        var left := ReturnClaim(path, original, true);
        return NoClaim(left);
      }
      return Claim(path);
    }

    /** promoteConfigDir. */
    method Promote(replacement: string, safety: Option<string>) returns (r: Promotion)
      requires Valid() && replacement != live
      requires live in names && names[live] in precious ==> names[live].Dir? && safety.None?
      requires safety.Some? ==> safety.value != live && safety.value != replacement
      modifies this
      ensures Valid() && old(seen) <= seen && old(tried) <= tried
      ensures r.Promoted? ==> Moves(old(names), names, precious, replacement, live)
      ensures r.InPlace? ==>
        if safety.None? then Spares(old(names), names, precious)
        else Moves(old(names), names, precious, safety.value, live)
      ensures r.Stranded? ==> safety == Some(r.at) && Spares(old(names), names, precious) &&
                              BothFailed(tried, |old(tried)|, replacement, r.at, live)
    {
      var ok := Rename(replacement, live);
      if ok {
        return Promoted;
      }
      if safety.None? {
        return InPlace;
      }
      var back := Rename(safety.value, live);
      if back {
        return InPlace;
      }
      assert tried[|old(tried)|] == Try(replacement, live, false);
      assert tried[|old(tried)| + 1] == Try(safety.value, live, false);
      return Stranded(safety.value);
    }

    /** The end of an import: the extracted tree takes the live one's place.
        Preparing the staging tree and clearing it away touch no tree at stake. */
    method Import(staging: string, prefix: string) returns (r: Outcome)
      requires Valid() && Recognised(prefix) && staging != live && !Recognised(staging)
      requires live in names && names[live] in precious ==> names[live].Dir?
      requires Without(names, precious, staging)
      modifies this
      ensures Valid() && old(seen) <= seen && old(tried) <= tried && !r.BadName?
      ensures live in old(names) && old(names)[live] in precious ==>
        match r
        case Done(safety) => safety.Some? && Recognised(safety.value) && Holds(names, safety.value, old(names)[live])
        case Failed(liveAt, _) => Holds(names, PathOf(liveAt, live), old(names)[live])
        case BadName => false
      ensures r.Failed? && r.liveAt.Some? ==>
        Recognised(r.liveAt.value) && BothFailed(tried, |old(tried)|, staging, r.liveAt.value, live)
    {
      var safety: Option<string> := None;
      var look := Inspect(live);
      if look.Present? {
        safety := MoveLiveAside(prefix);
        if safety.None? {
          return Failed(None, None);
        }
      }
      var promotion := Promote(staging, safety);
      match promotion {
        case Promoted => return Done(safety);
        case InPlace => return Failed(None, None);
        case Stranded(at) => return Failed(Some(at), None);
      }
    }

    /** The checks on a claimed snapshot: a directory, a valid config.yaml, and its
        permissions tightened. */
    method Secure(path: string, valid: bool) returns (ok: bool)
      requires Valid()
      modifies this
      ensures Valid() && old(seen) <= seen && tried == old(tried) && Spares(old(names), names, precious)
      ensures ok && path in old(names) && old(names)[path] in precious ==> valid && old(names)[path].Dir?
    {
      var look := Inspect(path);
      if !look.Present? || !look.isDir {
        return false;
      }
      var unreadable := Wait();
      if unreadable || !valid {
        return false;
      }
      var chmodFault := Wait();
      return !chmodFault;
    }

    /** Moving the live tree aside and promoting the claimed one. */
    method SwapIn(path: string, name: string) returns (r: Outcome)
      requires Valid() && CLAIM <= path && Recognised(path) && Recognised(name) && path != name
      requires live in names && names[live] in precious ==> names[live].Dir?
      modifies this
      ensures Valid() && old(seen) <= seen && old(tried) <= tried && !r.BadName?
      ensures live in old(names) && old(names)[live] in precious ==>
        (r.Done? ==> r.safety.Some? && Holds(names, r.safety.value, old(names)[live])) &&
        (r.Failed? ==> Holds(names, PathOf(r.liveAt, live), old(names)[live]))
      ensures path in old(names) && old(names)[path] in precious ==>
        (r.Done? ==> Holds(names, live, old(names)[path])) &&
        (r.Failed? ==> Holds(names, PathOf(r.selectedAt, name), old(names)[path]))
      ensures r.Done? && r.safety.Some? ==> Recognised(r.safety.value)
      ensures r.Failed? && r.liveAt.Some? ==>
        Recognised(r.liveAt.value) && r.liveAt.value != path &&
        BothFailed(tried, |old(tried)|, path, r.liveAt.value, live)
    {
      var safety: Option<string> := None;
      var look := Inspect(live);
      if look.Present? {
        safety := MoveLiveAside(PRE_RESTORE);
        if safety.None? {
          var left := ReturnClaim(path, name, true);
          return Failed(None, left);
        }
      }
      if safety.Some? { ClaimIsNoDate(path, date, safety.value); }
      var promotion := Promote(path, safety);
      if promotion.Promoted? {
        return Done(safety);
      }
      var left := ReturnClaim(path, name, true);
      return Failed(if promotion.Stranded? then Some(promotion.at) else None, left);
    }

    /** RestorePreImportBackup. After every outcome, and at every moment before it,
        the previous live tree and the selected snapshot both exist under a name that
        is live or listed; on an error each is back in its place, or the error says
        where it is, and for the live tree only after the claimed tree could not be
        renamed to its place and then it could not be renamed back itself. */
    method Restore(name: string, valid: bool) returns (r: Outcome)
      requires Valid()
      requires live in names && names[live] in precious ==> names[live].Dir?
      modifies this
      ensures Valid() && old(seen) <= seen
      ensures r.BadName? <==> !ValidName(name)
      ensures r.BadName? ==> names == old(names)
      ensures live in old(names) && old(names)[live] in precious ==>
        (r.Done? ==> r.safety.Some? && Holds(names, r.safety.value, old(names)[live])) &&
        (r.Failed? ==> Holds(names, PathOf(r.liveAt, live), old(names)[live]))
      ensures name in old(names) && old(names)[name] in precious ==>
        (r.Done? ==> valid && old(names)[name].Dir? && Holds(names, live, old(names)[name])) &&
        (r.Failed? ==> Holds(names, PathOf(r.selectedAt, name), old(names)[name]))
      ensures r.Done? && r.safety.Some? ==> Recognised(r.safety.value)
      ensures r.Failed? && r.liveAt.Some? ==>
        Recognised(r.liveAt.value) &&
        exists claim :: CLAIM <= claim && Recognised(claim) && claim != r.liveAt.value &&
                        BothFailed(tried, |old(tried)|, claim, r.liveAt.value, live)
    {
      if !ValidName(name) {
        return BadName;
      }
      var claim := ClaimSnapshot(name);
      if claim.NoClaim? {
        return Failed(None, claim.at);
      }
      var ok := Secure(claim.path, valid);
      if !ok {
        var left := ReturnClaim(claim.path, name, true);
        return Failed(None, left);
      }
      r := SwapIn(claim.path, name);
    }
  }
}
