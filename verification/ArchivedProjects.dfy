/** Archiving and restoring projects (internal/studio/archived_projects.go) and the
    reconciliation at startup (internal/studio/app.go). A project's configuration
    lives in one of two files, and moving it takes two commits.

    Every write replaces a whole file or fails; the studio may stop at any moment. All
    states of the two files are recorded. */
module ArchivedProjects {
  type Config = string
  type Configs = map<string, Config>

  const MAX_PROJECTS: nat := 500

  datatype ArchiveFile = Missing | Records(all: Configs) | Broken

  function Contents(f: ArchiveFile): Configs { if f.Records? then f.all else map[] }

  /** saveArchivedProjectsRaw: an empty archive is no file. */
  function Written(archived: Configs): ArchiveFile { if archived == map[] then Missing else Records(archived) }

  predicate Within(part: Configs, whole: Configs) { forall id :: id in part ==> id in whole && whole[id] == part[id] }

  /** No project is lost: each is in the active file or, failing that, in the archive. */
  predicate Covered(all: Configs, active: Configs, archive: ArchiveFile) {
    Within(active, all) && (forall id :: id in Contents(archive) ==> id in all) &&
    forall id :: id in all && id !in active ==> id in Contents(archive) && Contents(archive)[id] == all[id]
  }

  /** Each project is active or archived, not both, and the files hold at least what
      memory holds. */
  predicate Settled(all: Configs, projects: Configs, archived: Configs, active: Configs, archive: ArchiveFile) {
    !archive.Broken? && projects.Keys !! archived.Keys && projects + archived == all &&
    Within(projects, active) && Within(archived, Contents(archive))
  }

  lemma MovedIsSettled(all: Configs, projects: Configs, archived: Configs, id: string)
    requires projects.Keys !! archived.Keys && projects + archived == all
    ensures id in projects ==>
              Settled(all, projects - {id}, archived[id := projects[id]], projects - {id},
                      Written(archived[id := projects[id]]))
    ensures id in archived ==>
              Settled(all, projects[id := archived[id]], archived - {id}, projects[id := archived[id]],
                      Written(archived - {id}))
  {
    if id in projects { assert (projects - {id}) + archived[id := projects[id]] == all; }
    if id in archived { assert projects[id := archived[id]] + (archived - {id}) == all; }
  }

  lemma StaysSettled(all: Configs, projects: Configs, archived: Configs, active: Configs, archive: ArchiveFile, id: string)
    requires Settled(all, projects, archived, active, archive)
    ensures id in projects ==> Settled(all, projects, archived, active, Written(archived[id := projects[id]]))
    ensures Settled(all, projects, archived, active, Written(archived))
    ensures id in archived ==> Settled(all, projects, archived, projects[id := archived[id]], archive)
    ensures Settled(all, projects, archived, projects, archive)
  {
  }

  lemma ArchivingCovers(all: Configs, projects: Configs, archived: Configs, active: Configs, id: string)
    requires projects.Keys !! archived.Keys && projects + archived == all && id in projects
    requires Within(projects, active) && Within(active, all)
    ensures var nextArchived := Written(archived[id := projects[id]]);
            Covered(all, active, nextArchived) && Covered(all, projects - {id}, nextArchived) &&
            Covered(all, active, Written(archived))
  {
  }

  lemma RestoringCovers(all: Configs, projects: Configs, archived: Configs, archive: ArchiveFile, id: string)
    requires projects.Keys !! archived.Keys && projects + archived == all && id in archived
    requires Within(archived, Contents(archive)) && forall x :: x in Contents(archive) ==> x in all
    ensures var nextActive := projects[id := archived[id]];
            Covered(all, nextActive, archive) && Covered(all, nextActive, Written(archived - {id})) &&
            Covered(all, projects, archive)
  {
  }

  class Studio {
    var activeFile: Configs
    var archiveFile: ArchiveFile
    var projects: Configs          // in memory
    var archived: Configs
    var clock: nat
    const fails: nat -> bool
    ghost const all: Configs       // every project there is
    ghost var seen: seq<(Configs, ArchiveFile)>

    constructor (activeFile: Configs, archiveFile: ArchiveFile, fails: nat -> bool)
      ensures Safe() && this.activeFile == activeFile && this.archiveFile == archiveFile
      ensures clock == 0 && this.fails == fails
      ensures all == Contents(archiveFile) + activeFile
    {
      this.activeFile, this.archiveFile, projects, archived, clock := activeFile, archiveFile, map[], map[], 0;
      this.fails, all, seen := fails, Contents(archiveFile) + activeFile, [(activeFile, archiveFile)];
    }

    /** No project was lost in any state of the files so far. */
    ghost predicate Safe()
      reads this
    {
      Covered(all, activeFile, archiveFile) &&
      forall i :: 0 <= i < |seen| ==> Covered(all, seen[i].0, seen[i].1)
    }

    ghost predicate Valid()
      reads this
    {
      Safe() && Settled(all, projects, archived, activeFile, archiveFile)
    }

    method Try() returns (fault: bool)
      modifies this`clock
      ensures fault == fails(old(clock))
    {
      fault := fails(clock);
      clock := clock + 1;
    }

    method SaveActive(configs: Configs) returns (ok: bool)
      requires Safe() && Covered(all, configs, archiveFile)
      modifies this`activeFile, this`clock, this`seen
      ensures Safe() && old(seen) <= seen && activeFile == if ok then configs else old(activeFile)
    {
      var fault := Try();
      if fault || |configs| > MAX_PROJECTS {
        return false;
      }
      activeFile := configs;
      seen := seen + [(activeFile, archiveFile)];
      return true;
    }

    method SaveArchive(configs: Configs) returns (ok: bool)
      requires Safe() && Covered(all, activeFile, Written(configs))
      modifies this`archiveFile, this`clock, this`seen
      ensures Safe() && old(seen) <= seen && archiveFile == if ok then Written(configs) else old(archiveFile)
    {
      var fault := Try();
      if fault || |configs| > MAX_PROJECTS {
        return false;
      }
      archiveFile := Written(configs);
      seen := seen + [(activeFile, archiveFile)];
      return true;
    }

    /** The two commits of archiving; a failed second one takes the first back, as far
        as that succeeds. */
    method CommitArchiving(nextActive: Configs, nextArchived: Configs) returns (ok: bool)
      requires Safe() && Covered(all, activeFile, Written(nextArchived)) &&
               Covered(all, nextActive, Written(nextArchived))
      requires Covered(all, activeFile, Written(archived))
      modifies this`activeFile, this`archiveFile, this`clock, this`seen
      ensures Safe() && old(seen) <= seen
      ensures ok ==> activeFile == nextActive && archiveFile == Written(nextArchived)
      ensures !ok ==> activeFile == old(activeFile) &&
                      (archiveFile == old(archiveFile) || archiveFile == Written(nextArchived) ||
                        archiveFile == Written(archived))
    {
      var stored := SaveArchive(nextArchived);
      if !stored {
        return false;
      }
      ok := SaveActive(nextActive);
      if !ok {
        var takenBack := SaveArchive(archived);
      }
    }

    /** ArchiveProject. */
    method ArchiveProject(id: string, busy: bool) returns (ok: bool)
      requires Valid()
      modifies this
      ensures Valid() && old(seen) <= seen
      ensures ok ==> id in old(projects) && !busy && projects == old(projects) - {id} &&
                     archived == old(archived)[id := old(projects)[id]]
      ensures ok ==> id !in activeFile && id in Contents(archiveFile)
      ensures !ok ==> projects == old(projects) && archived == old(archived)
    {
      if id !in projects || busy {
        return false;
      }
      var nextActive, nextArchived := projects - {id}, archived[id := projects[id]];
      ArchivingCovers(all, projects, archived, activeFile, id);
      StaysSettled(all, projects, archived, activeFile, archiveFile, id);
      MovedIsSettled(all, projects, archived, id);
      ok := CommitArchiving(nextActive, nextArchived);
      if ok {
        projects, archived := nextActive, nextArchived;
      }
    }

    /** The two commits of restoring, in the other order. */
    method CommitRestoring(nextActive: Configs, nextArchived: Configs) returns (ok: bool)
      requires Safe() && Covered(all, nextActive, archiveFile) && Covered(all, nextActive, Written(nextArchived))
      requires Covered(all, projects, archiveFile)
      modifies this`activeFile, this`archiveFile, this`clock, this`seen
      ensures Safe() && old(seen) <= seen
      ensures ok ==> activeFile == nextActive && archiveFile == Written(nextArchived)
      ensures !ok ==> archiveFile == old(archiveFile) &&
                      (activeFile == old(activeFile) || activeFile == nextActive || activeFile == projects)
    {
      var stored := SaveActive(nextActive);
      if !stored {
        return false;
      }
      ok := SaveArchive(nextArchived);
      if !ok {
        var takenBack := SaveActive(projects);
      }
    }

    /** RestoreProject. */
    method RestoreProject(id: string, directoryTaken: bool) returns (ok: bool)
      requires Valid()
      modifies this
      ensures Valid() && old(seen) <= seen
      ensures ok ==> id in old(archived) && !directoryTaken && archived == old(archived) - {id} &&
                     projects == old(projects)[id := old(archived)[id]]
      ensures ok ==> id in activeFile && id !in Contents(archiveFile)
      ensures !ok ==> projects == old(projects) && archived == old(archived)
    {
      if id !in archived || |projects| + |archived| > MAX_PROJECTS || directoryTaken {
        return false;
      }
      var nextActive, nextArchived := projects[id := archived[id]], archived - {id};
      RestoringCovers(all, projects, archived, archiveFile, id);
      StaysSettled(all, projects, archived, activeFile, archiveFile, id);
      MovedIsSettled(all, projects, archived, id);
      ok := Reactivate(nextActive, nextArchived);
    }

    /** Both commits of restoring, and then memory. */
    method Reactivate(nextActive: Configs, nextArchived: Configs) returns (ok: bool)
      requires Valid() && Covered(all, nextActive, archiveFile) && Covered(all, nextActive, Written(nextArchived))
      requires Covered(all, projects, archiveFile)
      requires Settled(all, projects, archived, nextActive, archiveFile) &&
               Settled(all, projects, archived, projects, archiveFile)
      requires Settled(all, nextActive, nextArchived, nextActive, Written(nextArchived))
      modifies this
      ensures Valid() && old(seen) <= seen
      ensures ok ==> projects == nextActive == activeFile && archived == nextArchived && archiveFile == Written(nextArchived)
      ensures !ok ==> projects == old(projects) && archived == old(archived)
    {
      ok := CommitRestoring(nextActive, nextArchived);
      if ok {
        projects, archived := nextActive, nextArchived;
      }
    }

    /** Startup, when the archive can be read: the active file wins, and afterwards
        every project is on exactly one side. */
    method Startup()
      requires Safe() && !archiveFile.Broken?
      modifies this
      ensures Valid() && old(seen) <= seen
      ensures projects == old(activeFile) && archived == Contents(old(archiveFile)) - old(activeFile).Keys
    {
      projects := activeFile;
      archived := Contents(archiveFile) - activeFile.Keys;
      assert projects + archived == all;
      var reconciled := SaveArchive(archived);
      var saved := SaveActive(projects);
    }

    /** Startup when reading the archive failed: it goes on with an empty archive, and
        writing that removes the file. Whether a project was lost depends only on
        whether every project was active, unless the removal failed too. */
    method StartupUnread() returns (removed: bool)
      requires Safe()
      modifies this`projects, this`archived, this`archiveFile, this`clock
      ensures projects == activeFile == old(activeFile) && archived == map[]
      ensures archiveFile == if removed then Missing else old(archiveFile)
      ensures removed <==> !fails(old(clock))
      ensures removed ==> (Covered(all, activeFile, archiveFile) <==> forall id :: id in all ==> id in activeFile)
      ensures !removed ==> Covered(all, activeFile, archiveFile)
    {
      projects, archived := activeFile, map[];
      var fault := Try();
      if fault {
        return false;
      }
      archiveFile := Missing;
      return true;
    }
  }

  /** A crash between the two commits of archiving, whether or not the first one was
      written, leaves the project in the active file; the next startup has it active
      again, as it was, and no other project changes sides on account of it. */
  method CrashWhileArchiving(s: Studio, id: string)
    requires s.Valid() && id in s.projects
    modifies s
    ensures s.Valid() && id in s.projects && s.projects[id] == old(s.projects)[id] && s.projects == old(s.activeFile)
    ensures old(s.activeFile) == old(s.projects) ==> s.archived == old(s.archived)
  {
    ArchivingCovers(s.all, s.projects, s.archived, s.activeFile, id);
    var first := s.SaveArchive(s.archived[id := s.projects[id]]);
    s.Startup();
  }

  /** A crash between the two commits of restoring finishes what it began: once the
      first one was written, the next startup has the project active. */
  method CrashWhileRestoring(s: Studio, id: string) returns (first: bool)
    requires s.Valid() && id in s.archived
    modifies s
    ensures s.Valid()
    ensures first ==> s.projects == old(s.projects)[id := old(s.archived)[id]] && s.archived == old(s.archived) - {id}
    ensures !first ==> s.projects == old(s.activeFile)
  {
    RestoringCovers(s.all, s.projects, s.archived, s.archiveFile, id);
    first := s.SaveActive(s.projects[id := s.archived[id]]);
    s.Startup();
  }

  /** An archived project that is not active is lost when its file cannot be read once. */
  method UnreadArchiveLoses(id: string, config: Config) returns (s: Studio)
    ensures id in s.all && id !in s.activeFile && id !in Contents(s.archiveFile) && id !in s.projects &&
            id !in s.archived
  {
    s := new Studio(map[], Records(map[id := config]), _ => false);
    var removed := s.StartupUnread();
  }
}
