/**
 Claiming a plan for one run: two records, each created only if absent, the backup first.
 Processes take the steps of a claim in any interleaving and may stop after any of them
 (internal/runstate/store.go).
 */
module RunClaim {
  import opened Domain

  /** A catalog entry; a plan record has an empty run and journal. */
  datatype CatalogEntry = CatalogEntry(planId: PlanID, planPath: string, runId: RunID, journalPath: string)

  /** The file names of a plan's records, one per hashed plan ID. */
  datatype Name = PlanName(planId: PlanID) | PrimaryName(planId: PlanID) | BackupName(planId: PlanID)

  datatype Slot = Readable(entry: CatalogEntry) | Unreadable

  type Directory = map<Name, Slot>

  datatype InstallError = EntryUnreadable | EntryConflict

  // One record

  /** Creating a link fails if the name exists; then the existing record must be the same. */
  function Install(directory: Directory, name: Name, value: CatalogEntry): (r: (Directory, Result<bool, InstallError>))
    ensures name in r.0
    ensures forall other :: other in directory ==> other in r.0 && r.0[other] == directory[other]
    ensures forall other :: other in r.0 && other != name ==> other in directory
    ensures r.1.Ok? <==> r.0[name] == Readable(value)
    ensures r.1.Ok? ==> (r.1.value <==> name !in directory)
  {
    if name !in directory then (directory[name := Readable(value)], Ok(true))
    else
      match directory[name]
      case Unreadable => (directory, Err(EntryUnreadable))
      case Readable(previous) => (directory, if previous == value then Ok(false) else Err(EntryConflict))
  }

  /** A record of that name is absent or the same. */
  predicate Admits(directory: Directory, name: Name, value: CatalogEntry) {
    name in directory ==> directory[name] == Readable(value)
  }

  function PlanRecord(claim: CatalogEntry): CatalogEntry {
    claim.(runId := "", journalPath := "")
  }

  class Catalog {
    var directory: Directory

    constructor ()
      ensures directory == map[]
    {
      directory := map[];
    }

    method InstallEntry(name: Name, value: CatalogEntry) returns (created: Result<bool, InstallError>)
      modifies this
      ensures (directory, created) == Install(old(directory), name, value)
    {
      if name !in directory {
        directory := directory[name := Readable(value)];
        return Ok(true);
      }
      match directory[name] {
        case Unreadable => return Err(EntryUnreadable);
        case Readable(previous) =>
          if previous != value { return Err(EntryConflict); }
          return Ok(false);
      }
    }

    /**
     A claim that nobody interrupts: it succeeds exactly if no record names another run and no
     reservation lacks its journal.
     */
    method ClaimRun(claim: CatalogEntry, seen: JournalSeen) returns (claimed: bool)
      modifies this
      ensures var id, before := claim.planId, old(directory);
        claimed <==>
          && ValidIdentifier(claim.runId) && !seen.JournalUnusable?
          && Admits(before, PlanName(id), PlanRecord(claim)) && Admits(before, BackupName(id), claim)
          && Admits(before, PrimaryName(id), claim)
          && (seen.JournalMissing? ==> BackupName(id) !in before)
      ensures claimed ==>
                directory == old(directory)[PlanName(claim.planId) := Readable(PlanRecord(claim))]
                                           [BackupName(claim.planId) := Readable(claim)]
                                           [PrimaryName(claim.planId) := Readable(claim)]
      ensures forall name :: name in old(directory) ==> name in directory && directory[name] == old(directory)[name]
    {
      if !ValidIdentifier(claim.runId) { return false; }
      var id := claim.planId;
      var registered := InstallEntry(PlanName(id), PlanRecord(claim));
      if registered.Err? || seen.JournalUnusable? { return false; }
      var created := InstallEntry(BackupName(id), claim);
      if created.Err? { return false; }
      var repeated := InstallEntry(PrimaryName(id), claim);
      if repeated.Err? { return false; }
      return created.value || !seen.JournalMissing?;
    }

    /** The claim of a plan as either record shows it. */
    method ClaimEntry(id: PlanID) returns (found: Result<Option<CatalogEntry>, ClaimError>)
      ensures found == Claimed(directory, id)
      ensures FoundAsShown(directory, id, found)
    {
      var primary, backup := Read(directory, PrimaryName(id)), Read(directory, BackupName(id));
      if primary.Missing? && backup.Missing? { return Ok(None); }
      if primary.Present? && backup.Present? {
        if primary != backup { return Err(ConflictingRecords); }
      }
      else if primary.Present? { backup := primary; }
      else if backup.Present? { primary := backup; }
      else { return Err(CorruptCatalog); }
      if !ValidClaim(primary.entry, id) { return Err(InvalidRecord); }
      return Ok(Some(primary.entry));
    }
  }

  /** The record of that name exists and is readable. */
  predicate Shown(directory: Directory, name: Name) {
    name in directory && directory[name].Readable?
  }

  /**
   No claim exactly if both records are absent; a conflict exactly if both are readable and differ; corruption
   exactly if there are records and none is readable; and otherwise the readable entry, if it is a claim of the plan.
   */
  predicate FoundAsShown(directory: Directory, id: PlanID, found: Result<Option<CatalogEntry>, ClaimError>) {
    var p, b := PrimaryName(id), BackupName(id);
    var conflict := Shown(directory, p) && Shown(directory, b) && directory[p] != directory[b];
    && (found == Ok(None) <==> p !in directory && b !in directory)
    && (found == Err(ConflictingRecords) <==> conflict)
    && (found == Err(CorruptCatalog) <==>
          (p in directory || b in directory) && !Shown(directory, p) && !Shown(directory, b))
    && (!conflict && (Shown(directory, p) || Shown(directory, b)) ==>
          var entry := if Shown(directory, p) then directory[p].entry else directory[b].entry;
          if entry.planId == id && ValidIdentifier(entry.runId) && entry.journalPath != "" then found == Ok(Some(entry))
          else found == Err(InvalidRecord))
  }

  datatype ReadEntry = Missing | Broken | Present(entry: CatalogEntry)

  function Read(directory: Directory, name: Name): ReadEntry {
    if name !in directory then Missing
    else
      match directory[name]
      case Unreadable => Broken
      case Readable(entry) => Present(entry)
  }

  datatype ClaimError = ConflictingRecords | CorruptCatalog | InvalidRecord

  predicate ValidClaim(entry: CatalogEntry, id: PlanID) {
    entry.planId == id && ValidIdentifier(entry.runId) && entry.journalPath != ""
  }

  /** What the two records of a plan say together. */
  function Claimed(directory: Directory, id: PlanID): Result<Option<CatalogEntry>, ClaimError> {
    match (Read(directory, PrimaryName(id)), Read(directory, BackupName(id)))
    case (Missing, Missing) => Ok(None)
    case (Present(p), Present(b)) =>
      if p != b then Err(ConflictingRecords) else if ValidClaim(p, id) then Ok(Some(p)) else Err(InvalidRecord)
    case (Present(p), _) => if ValidClaim(p, id) then Ok(Some(p)) else Err(InvalidRecord)
    case (_, Present(b)) => if ValidClaim(b, id) then Ok(Some(b)) else Err(InvalidRecord)
    case _ => Err(CorruptCatalog)
  }

  // The protocol

  datatype Stage =
    | Starting
    | Registered
    | JournalRead(sawJournal: bool)
    | BackupInstalled(sawJournal: bool, created: bool)
    | PrimaryInstalled(sawJournal: bool, created: bool)
    | Succeeded(sawJournal: bool)
    | Abandoned

  /** A process that claims a run: what it wants to record, and how far it got. */
  datatype Claimant = Claimant(claim: CatalogEntry, stage: Stage)

  type ProcessID = nat

  datatype ClaimWorld = ClaimWorld(directory: Directory, claimants: map<ProcessID, Claimant>)

  datatype JournalSeen = JournalMissing | JournalPresent | JournalUnusable

  datatype ClaimStep =
    | Begin(process: ProcessID, claim: CatalogEntry)
    | Register(process: ProcessID)
    | LookAtJournal(process: ProcessID, seen: JournalSeen)
    | InstallBackup(process: ProcessID)
    | InstallPrimary(process: ProcessID)
    | Conclude(process: ProcessID)
    // An I/O error, before or after its entry became visible, or the end of the process.
    | Stop(process: ProcessID)

  /** A record is installed and the process goes on to the next stage or fails. */
  function InstallAnd(w: ClaimWorld, process: ProcessID, name: Name, value: CatalogEntry,
                      next: bool -> Stage): ClaimWorld
    requires process in w.claimants
  {
    var (directory, created) := Install(w.directory, name, value);
    var stage := if created.Ok? then next(created.value) else Abandoned;
    ClaimWorld(directory, w.claimants[process := w.claimants[process].(stage := stage)])
  }

  function Advance(w: ClaimWorld, step: ClaimStep): Option<ClaimWorld> {
    if step.Begin? then
      if step.process in w.claimants || !ValidClaim(step.claim, step.claim.planId) then None
      else Some(w.(claimants := w.claimants[step.process := Claimant(step.claim, Starting)]))
    else if step.process !in w.claimants then None
    else
      var c := w.claimants[step.process];
      var id := c.claim.planId;
      match (step, c.stage)
      case (Register(_), Starting) =>
        Some(InstallAnd(w, step.process, PlanName(id), PlanRecord(c.claim), created => Registered))
      case (LookAtJournal(_, seen), Registered) =>
        var stage := if seen.JournalUnusable? then Abandoned else JournalRead(seen.JournalPresent?);
        Some(w.(claimants := w.claimants[step.process := c.(stage := stage)]))
      case (InstallBackup(_), JournalRead(saw)) =>
        Some(InstallAnd(w, step.process, BackupName(id), c.claim, created => BackupInstalled(saw, created)))
      case (InstallPrimary(_), BackupInstalled(saw, created)) =>
        Some(InstallAnd(w, step.process, PrimaryName(id), c.claim, _ => PrimaryInstalled(saw, created)))
      case (Conclude(_), PrimaryInstalled(saw, created)) =>
        // A reservation without a journal needs manual recovery.
        var stage := if !created && !saw then Abandoned else Succeeded(saw);
        Some(w.(claimants := w.claimants[step.process := c.(stage := stage)]))
      case (Stop(_), _) =>
        if c.stage.Succeeded? then None else Some(w.(claimants := w.claimants[step.process := c.(stage := Abandoned)]))
      case _ => None
  }

  function Advances(w: ClaimWorld, steps: seq<ClaimStep>): Option<ClaimWorld>
    decreases |steps|
  {
    if steps == [] then Some(w)
    else
      match Advances(w, steps[..|steps| - 1])
      case None => None
      case Some(before) => Advance(before, steps[|steps| - 1])
  }

  // The invariant

  /** The process created the backup record of its plan and may still succeed without a journal, or has. */
  predicate HoldsReservation(c: Claimant) {
    || (c.stage.BackupInstalled? && c.stage.created)
    || (c.stage.PrimaryInstalled? && c.stage.created)
    || (c.stage.Succeeded? && !c.stage.sawJournal)
  }

  predicate ClaimantSound(directory: Directory, c: Claimant) {
    var id := c.claim.planId;
    && ValidClaim(c.claim, id)
    && (c.stage.BackupInstalled? || c.stage.PrimaryInstalled? || c.stage.Succeeded? ==>
          BackupName(id) in directory && directory[BackupName(id)] == Readable(c.claim))
    && (c.stage.PrimaryInstalled? || c.stage.Succeeded? ==>
          PrimaryName(id) in directory && directory[PrimaryName(id)] == Readable(c.claim))
  }

  /** A primary record only repeats the backup record. */
  ghost predicate RecordsAgree(directory: Directory) {
    forall id :: PrimaryName(id) in directory ==>
      BackupName(id) in directory && directory[PrimaryName(id)] == directory[BackupName(id)]
  }

  ghost predicate RecordsValid(directory: Directory) {
    forall id :: BackupName(id) in directory ==>
      directory[BackupName(id)].Readable? && ValidClaim(directory[BackupName(id)].entry, id)
  }

  ghost predicate OneReservation(w: ClaimWorld) {
    forall p, q ::
      && p in w.claimants && q in w.claimants
      && HoldsReservation(w.claimants[p]) && HoldsReservation(w.claimants[q])
      && w.claimants[p].claim.planId == w.claimants[q].claim.planId
      ==> p == q
  }

  ghost predicate ClaimInvariant(w: ClaimWorld) {
    && (forall p :: p in w.claimants ==> ClaimantSound(w.directory, w.claimants[p]))
    && (forall p :: p in w.claimants && HoldsReservation(w.claimants[p]) ==>
        BackupName(w.claimants[p].claim.planId) in w.directory)
    && RecordsAgree(w.directory) && RecordsValid(w.directory) && OneReservation(w)
  }

  /** The catalog without the claims of any process. */
  const EMPTY_CLAIMS := ClaimWorld(map[], map[])

  // The parts of the invariant, each after a record was installed

  ghost predicate ClaimantsSound(w: ClaimWorld) {
    forall p :: p in w.claimants ==> ClaimantSound(w.directory, w.claimants[p])
  }

  /** One process went on by installing a record, or failed to; everything else stayed. */
  ghost predicate Installed(w: ClaimWorld, after: ClaimWorld, p: ProcessID, name: Name, value: CatalogEntry) {
    && p in w.claimants && after.claimants.Keys == w.claimants.Keys
    && after.directory == Install(w.directory, name, value).0
    && after.claimants[p].claim == w.claimants[p].claim
    && (forall q :: q in w.claimants && q != p ==> after.claimants[q] == w.claimants[q])
  }

  lemma InstallKeepsOthers(w: ClaimWorld, after: ClaimWorld, p: ProcessID, name: Name, value: CatalogEntry)
    requires ClaimantsSound(w) && Installed(w, after, p, name, value)
    ensures forall q :: q in after.claimants && q != p ==> ClaimantSound(after.directory, after.claimants[q])
  {
    hide ValidClaim, Install;
    InstallGrows(w.directory, name, value);
    forall q | q in after.claimants && q != p ensures ClaimantSound(after.directory, after.claimants[q]) {
      assert ClaimantSound(w.directory, w.claimants[q]);
    }
  }

  lemma InstallGrows(directory: Directory, name: Name, value: CatalogEntry)
    ensures var grown := Install(directory, name, value).0;
      && name in grown
      && (forall other :: other in directory ==> other in grown && grown[other] == directory[other])
      && (forall other :: other in grown && other != name ==> other in directory)
  {
    hide Install;
    var r := Install(directory, name, value);
  }

  /** The step of installing the backup in terms of that. */
  lemma BackupInstalls(w: ClaimWorld, step: ClaimStep, after: ClaimWorld)
    requires Advance(w, step) == Some(after) && step.InstallBackup?
    ensures step.process in w.claimants
    ensures var c := w.claimants[step.process];
      && Installed(w, after, step.process, BackupName(c.claim.planId), c.claim) && c.stage.JournalRead?
      && after.claimants[step.process].stage
         == match Install(w.directory, BackupName(c.claim.planId), c.claim).1
            case Ok(created) => BackupInstalled(c.stage.sawJournal, created)
            case Err(_) => Abandoned
  {
    hide Install;
  }

  lemma BackupKeepsRecords(w: ClaimWorld, step: ClaimStep, after: ClaimWorld)
    requires ClaimInvariant(w) && Advance(w, step) == Some(after) && step.InstallBackup?
    ensures RecordsAgree(after.directory) && RecordsValid(after.directory) && ClaimantsSound(after)
  {
    hide ValidClaim, OneReservation, Advance, HoldsReservation;
    BackupInstalls(w, step, after);
    assert ClaimantSound(w.directory, w.claimants[step.process]);
    var c := w.claimants[step.process];
    InstallKeepsOthers(w, after, step.process, BackupName(c.claim.planId), c.claim);
  }

  lemma BackupKeepsReservation(w: ClaimWorld, step: ClaimStep, after: ClaimWorld)
    requires ClaimInvariant(w) && Advance(w, step) == Some(after) && step.InstallBackup?
    ensures OneReservation(after)
    ensures forall p :: p in after.claimants && HoldsReservation(after.claimants[p]) ==>
              BackupName(after.claimants[p].claim.planId) in after.directory
  {
    hide ValidClaim, ClaimantSound, RecordsAgree, RecordsValid;
    BackupInstalls(w, step, after);
    InstallGrows(w.directory, BackupName(w.claimants[step.process].claim.planId), w.claimants[step.process].claim);
  }

  lemma BackupKeepsClaims(w: ClaimWorld, step: ClaimStep, after: ClaimWorld)
    requires ClaimInvariant(w) && Advance(w, step) == Some(after) && step.InstallBackup?
    ensures ClaimInvariant(after)
  {
    hide Advance, ClaimantSound, OneReservation, RecordsAgree, RecordsValid, HoldsReservation;
    BackupKeepsRecords(w, step, after);
    BackupKeepsReservation(w, step, after);
  }

  lemma PrimaryKeepsClaims(w: ClaimWorld, step: ClaimStep, after: ClaimWorld)
    requires ClaimInvariant(w) && Advance(w, step) == Some(after) && step.InstallPrimary?
    ensures ClaimInvariant(after)
  {
    hide ValidClaim;
  }

  lemma BeginKeepsClaims(w: ClaimWorld, step: ClaimStep, after: ClaimWorld)
    requires ClaimInvariant(w) && Advance(w, step) == Some(after) && step.Begin?
    ensures ClaimInvariant(after)
  {
    hide ValidClaim;
  }

  lemma ConclusionKeepsClaims(w: ClaimWorld, step: ClaimStep, after: ClaimWorld)
    requires ClaimInvariant(w) && Advance(w, step) == Some(after) && step.Conclude?
    ensures ClaimInvariant(after)
  {
    hide ValidClaim;
  }

  lemma OtherStepsKeepClaims(w: ClaimWorld, step: ClaimStep, after: ClaimWorld)
    requires ClaimInvariant(w) && Advance(w, step) == Some(after) && (step.LookAtJournal? || step.Stop?)
    ensures ClaimInvariant(after)
  {
    hide ValidClaim;
  }

  lemma RegisterInstalls(w: ClaimWorld, step: ClaimStep, after: ClaimWorld)
    requires Advance(w, step) == Some(after) && step.Register?
    ensures step.process in w.claimants
    ensures var claim := w.claimants[step.process].claim;
      Installed(w, after, step.process, PlanName(claim.planId), PlanRecord(claim))
    ensures w.claimants[step.process].stage.Starting?
    ensures after.claimants[step.process].stage.Registered? || after.claimants[step.process].stage.Abandoned?
  {
    hide Install;
  }

  lemma RegisterKeepsClaims(w: ClaimWorld, step: ClaimStep, after: ClaimWorld)
    requires ClaimInvariant(w) && Advance(w, step) == Some(after) && step.Register?
    ensures ClaimInvariant(after)
  {
    hide ValidClaim, Advance, Install;
    RegisterInstalls(w, step, after);
    var c := w.claimants[step.process];
    assert ClaimantSound(w.directory, c);
    InstallGrows(w.directory, PlanName(c.claim.planId), PlanRecord(c.claim));
    InstallKeepsOthers(w, after, step.process, PlanName(c.claim.planId), PlanRecord(c.claim));
  }

  lemma StepKeepsClaims(w: ClaimWorld, step: ClaimStep, after: ClaimWorld)
    requires ClaimInvariant(w) && Advance(w, step) == Some(after)
    ensures ClaimInvariant(after)
  {
    hide ClaimInvariant, Advance;
    if step.InstallBackup? { BackupKeepsClaims(w, step, after); }
    else if step.InstallPrimary? { PrimaryKeepsClaims(w, step, after); }
    else if step.Register? { RegisterKeepsClaims(w, step, after); }
    else if step.Begin? { BeginKeepsClaims(w, step, after); }
    else if step.Conclude? { ConclusionKeepsClaims(w, step, after); }
    else { OtherStepsKeepClaims(w, step, after); }
  }

  lemma {:induction false} ClaimsKeepInvariant(w: ClaimWorld, steps: seq<ClaimStep>, after: ClaimWorld)
    requires ClaimInvariant(w) && Advances(w, steps) == Some(after)
    ensures ClaimInvariant(after)
    decreases |steps|
  {
    hide Advance, ClaimInvariant;
    if steps != [] {
      var before := Advances(w, steps[..|steps| - 1]).value;
      ClaimsKeepInvariant(w, steps[..|steps| - 1], before);
      StepKeepsClaims(before, steps[|steps| - 1], after);
    }
  }

  /**
   Uniqueness: whatever the interleaving and wherever processes stop, all claims of one plan that
   succeed carry the same identity, and at most one of them succeeds without having seen a journal.
   */
  lemma OneRunPerPlan(steps: seq<ClaimStep>, w: ClaimWorld, p: ProcessID, q: ProcessID)
    requires Advances(EMPTY_CLAIMS, steps) == Some(w)
    requires p in w.claimants && q in w.claimants && w.claimants[p].stage.Succeeded? && w.claimants[q].stage.Succeeded?
    requires w.claimants[p].claim.planId == w.claimants[q].claim.planId
    ensures w.claimants[p].claim == w.claimants[q].claim
    ensures !w.claimants[p].stage.sawJournal && !w.claimants[q].stage.sawJournal ==> p == q
  {
    ClaimsKeepInvariant(EMPTY_CLAIMS, steps, w);
    hide Advances, ValidClaim;
    assert ClaimantSound(w.directory, w.claimants[p]) && ClaimantSound(w.directory, w.claimants[q]);
  }

  /** One of a plan's two records is missing or unreadable; the other and everything else is as it was. */
  ghost predicate Damaged(before: Directory, after: Directory, id: PlanID) {
    && (Read(after, PrimaryName(id)) == Read(before, PrimaryName(id))
        || Read(after, BackupName(id)) == Read(before, BackupName(id)))
    && (Read(after, PrimaryName(id)) == Read(before, PrimaryName(id)) || !Read(after, PrimaryName(id)).Present?)
    && (Read(after, BackupName(id)) == Read(before, BackupName(id)) || !Read(after, BackupName(id)).Present?)
  }

  /** Recovery: the identity of a successful claim is found again even if one of the two records is damaged. */
  lemma ClaimSurvivesDamage(steps: seq<ClaimStep>, w: ClaimWorld, p: ProcessID, directory: Directory)
    requires Advances(EMPTY_CLAIMS, steps) == Some(w) && p in w.claimants && w.claimants[p].stage.Succeeded?
    requires Damaged(w.directory, directory, w.claimants[p].claim.planId)
    ensures Claimed(directory, w.claimants[p].claim.planId) == Ok(Some(w.claimants[p].claim))
  {
    ClaimsKeepInvariant(EMPTY_CLAIMS, steps, w);
    hide Advances, ValidClaim;
    assert ClaimantSound(w.directory, w.claimants[p]);
  }

  /** Without damage the two records never conflict: a plan is unclaimed or has one valid claim. */
  lemma RecordsNeverConflict(steps: seq<ClaimStep>, w: ClaimWorld, id: PlanID)
    requires Advances(EMPTY_CLAIMS, steps) == Some(w)
    ensures Claimed(w.directory, id).Ok?
    ensures Claimed(w.directory, id) == Ok(None) <==> BackupName(id) !in w.directory
  {
    ClaimsKeepInvariant(EMPTY_CLAIMS, steps, w);
    hide Advances, ValidClaim;
  }
}
