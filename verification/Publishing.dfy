/** Publishing a workflow: the definition is validated on a copy read earlier, and the
    transaction that stores the snapshot compares only time stamps. */
module Publishing {
  import opened Common
  import opened Workflow
  import opened Validation

  datatype WorkflowStatus = Draft | Published | Archived

  /** `updatedAt` counts microseconds, the resolution of the comparison. */
  datatype WorkflowRow = WorkflowRow(definition: Definition, status: WorkflowStatus, updatedAt: int, deleted: bool)

  datatype Version = Version(number: nat, definition: Definition)

  function Highest(versions: seq<Version>): nat {
    if versions == [] then 0
    else
      var before := Highest(versions[..|versions| - 1]);
      if versions[|versions| - 1].number > before then versions[|versions| - 1].number else before
  }

  /** Version numbers are 1, 2, ... in the order they were stored. */
  ghost predicate Numbered(versions: seq<Version>) {
    forall i | 0 <= i < |versions| :: versions[i].number == i + 1
  }

  lemma {:induction false} HighestIsLast(versions: seq<Version>)
    requires Numbered(versions)
    ensures Highest(versions) == |versions|
  {
    if versions != [] {
      HighestIsLast(versions[..|versions| - 1]);
    }
  }

  datatype Outcome = Stored(number: nat) | NotFound | InvalidState | PublishConflict | Rejected

  function PublishOutcome(w: WorkflowRow, expected: WorkflowRow, versions: seq<Version>): Outcome {
    if w.deleted then NotFound
    else if w.status == Archived then InvalidState
    else if w.updatedAt != expected.updatedAt then PublishConflict
    else Stored(Highest(versions) + 1)
  }

  // ----- the repository and the service, in place

  class WorkflowRepository {
    var workflow: WorkflowRow
    var versions: seq<Version>

    constructor (workflow: WorkflowRow)
      ensures this.workflow == workflow && versions == []
    {
      this.workflow, versions := workflow, [];
    }

    method NextVersion() returns (next: nat)
      ensures next == Highest(versions) + 1
    {
      var most := 0;
      for k := 0 to |versions|
        invariant most == Highest(versions[..k])
      {
        assert versions[..k + 1][..k] == versions[..k];
        if versions[k].number > most {
          most := versions[k].number;
        }
      }
      assert versions[..|versions|] == versions;
      next := most + 1;
    }

    /** A blind write of the caller's copy. */
    method UpdateWorkflow(copy: WorkflowRow) returns (ok: bool)
      modifies this`workflow
      ensures ok <==> !old(workflow).deleted
      ensures workflow == if ok then copy.(deleted := false) else old(workflow)
    {
      ok := !workflow.deleted;
      if ok {
        workflow := workflow.(definition := copy.definition, status := copy.status, updatedAt := copy.updatedAt);
      }
    }

    method SoftDeleteWorkflow(now: int) returns (ok: bool)
      modifies this`workflow
      ensures ok <==> !old(workflow).deleted
      ensures workflow == if ok then old(workflow).(deleted := true, updatedAt := now) else old(workflow)
    {
      ok := !workflow.deleted;
      if ok {
        workflow := workflow.(deleted := true, updatedAt := now);
      }
    }

    /** The transaction: what is stored is the row's definition, not the caller's. */
    method PublishWorkflow(expected: WorkflowRow, publishedAt: int) returns (r: Outcome)
      modifies this
      ensures r == PublishOutcome(old(workflow), expected, old(versions))
      ensures r.Stored? ==> versions == old(versions) + [Version(r.number, old(workflow).definition)]
      ensures r.Stored? ==> workflow == old(workflow).(status := Published, updatedAt := publishedAt)
      ensures !r.Stored? ==> workflow == old(workflow) && versions == old(versions)
    {
      if workflow.deleted {
        return NotFound;
      }
      if workflow.status == Archived {
        return InvalidState;
      }
      if workflow.updatedAt != expected.updatedAt {
        return PublishConflict;
      }
      var next := NextVersion();
      versions := versions + [Version(next, workflow.definition)];
      workflow := workflow.(status := Published, updatedAt := publishedAt);
      r := Stored(next);
    }
  }

  class WorkflowService {
    const repository: WorkflowRepository

    constructor (repository: WorkflowRepository)
      ensures this.repository == repository
    {
      this.repository := repository;
    }

    /** Undisturbed, publishing stores a snapshot exactly when the row is there, not
        archived, and its definition is sound with distinct edge keys. */
    method PublishWorkflow(publishedAt: int) returns (r: Outcome)
      modifies repository
      ensures r.Stored? <==> (var w := old(repository.workflow);
                              !w.deleted && w.status != Archived && Sound(w.definition) && KeysDistinct(w.definition))
      ensures r.Stored? ==> repository.versions == old(repository.versions) + [Version(r.number, old(repository.workflow).definition)]
      ensures !r.Stored? ==> repository.versions == old(repository.versions) && repository.workflow == old(repository.workflow)
    {
      if repository.workflow.deleted {
        return NotFound;
      }
      var workflow := repository.workflow;
      var valid, faults := ValidateDefinition(workflow.definition);
      ValidMeansFaultFree(workflow.definition, faults);
      AcceptedIffSound(workflow.definition);
      if !valid {
        return Rejected;
      }
      r := repository.PublishWorkflow(workflow, publishedAt);
    }
  }

  // ----- any number of editors and publishers

  /** A request that has read the row; `accepted` once its copy passed validation. */
  datatype Session = Session(copy: WorkflowRow, accepted: bool)

  /** `history` lists every content the row ever had, with its stamp. */
  datatype World = World(
    workflow: WorkflowRow, versions: seq<Version>, sessions: seq<Session>, history: seq<(int, Definition)>)

  datatype Event =
    | Fetch
    | Validate(session: nat)
    | Publish(session: nat, at: int)
    | Write(session: nat, definition: Option<Definition>, at: int)
    | Delete(at: int)

  ghost predicate Enabled(w: World, e: Event) {
    match e
    case Fetch => !w.workflow.deleted
    case Validate(i) => i < |w.sessions| && FaultFree(w.sessions[i].copy.definition)
    case Publish(i, _) => i < |w.sessions| && w.sessions[i].accepted
    case Write(i, _, _) => i < |w.sessions| && w.sessions[i].copy.status != Archived
    case Delete(_) => true
  }

  function Save(w: World, row: WorkflowRow): World {
    w.(workflow := row, history := w.history + [(row.updatedAt, row.definition)])
  }

  function Next(w: World, e: Event): World
    requires Enabled(w, e)
  {
    match e
    case Fetch => w.(sessions := w.sessions + [Session(w.workflow, false)])
    case Validate(i) => w.(sessions := w.sessions[i := w.sessions[i].(accepted := true)])
    case Publish(i, at) =>
      var r := PublishOutcome(w.workflow, w.sessions[i].copy, w.versions);
      if r.Stored? then
        Save(w, w.workflow.(status := Published, updatedAt := at))
          .(versions := w.versions + [Version(r.number, w.workflow.definition)])
      else w
    case Write(i, definition, at) =>
      if w.workflow.deleted then w
      else Save(w, WorkflowRow(if definition.Some? then definition.value else w.sessions[i].copy.definition, Draft, at, false))
    case Delete(at) => if w.workflow.deleted then w else Save(w, w.workflow.(deleted := true, updatedAt := at))
  }

  ghost predicate Initial(w: World) {
    w.versions == [] && w.sessions == [] && w.history == [(w.workflow.updatedAt, w.workflow.definition)]
  }

  ghost predicate Step(w: World, e: Event, v: World) {
    Enabled(w, e) && v == Next(w, e)
  }

  ghost predicate Run(ws: seq<World>, events: seq<Event>) {
    && |ws| == |events| + 1 && Initial(ws[0])
    && forall i, j | 0 <= i < j < |ws| && j == i + 1 :: Step(ws[i], events[i], ws[j])
  }

  lemma StepNumbers(w: World, e: Event)
    requires Enabled(w, e) && Numbered(w.versions)
    ensures Numbered(Next(w, e).versions) && w.versions <= Next(w, e).versions && w.history <= Next(w, e).history
  {
    HighestIsLast(w.versions);
  }

  /** Versions are 1..n and, once stored, never change, whoever edits and publishes. */
  lemma {:induction false} VersionsNumberedForever(ws: seq<World>, events: seq<Event>, i: nat, k: nat)
    requires Run(ws, events) && i <= k < |ws|
    ensures Numbered(ws[i].versions) && Numbered(ws[k].versions)
    ensures ws[i].versions <= ws[k].versions && ws[i].history <= ws[k].history
    decreases k
  {
    if k > 0 {
      VersionsNumberedForever(ws, events, if i == k then k - 1 else i, k - 1);
      assert Step(ws[k - 1], events[k - 1], ws[k]);
      StepNumbers(ws[k - 1], events[k - 1]);
    }
  }

  /** Different contents never share a stamp. */
  ghost predicate Telling(history: seq<(int, Definition)>) {
    forall x, y | x in history && y in history && x.0 == y.0 :: x.1 == y.1
  }

  ghost predicate Recorded(w: World, row: WorkflowRow) {
    (row.updatedAt, row.definition) in w.history
  }

  ghost predicate SessionFits(w: World, s: Session) {
    Recorded(w, s.copy) && (s.accepted ==> FaultFree(s.copy.definition))
  }

  ghost predicate AllAccepted(versions: seq<Version>) {
    forall i | 0 <= i < |versions| :: FaultFree(versions[i].definition)
  }

  /** Every content a session has read was once stored, and accepted ones are fault-free. */
  ghost predicate Tracked(w: World) {
    && Recorded(w, w.workflow)
    && (forall i | 0 <= i < |w.sessions| :: SessionFits(w, w.sessions[i]))
  }

  lemma StepTracked(w: World, e: Event)
    requires Enabled(w, e) && Tracked(w)
    ensures Tracked(Next(w, e))
  {
    var v := Next(w, e);
    assert forall x | x in w.history :: x in v.history;
    forall i | 0 <= i < |v.sessions|
      ensures SessionFits(v, v.sessions[i])
    {
      if i < |w.sessions| {
        assert SessionFits(w, w.sessions[i]);
      }
    }
  }

  lemma {:induction false} AlwaysTracked(ws: seq<World>, events: seq<Event>, k: nat)
    requires Run(ws, events) && k < |ws|
    ensures Tracked(ws[k])
  {
    if k > 0 {
      AlwaysTracked(ws, events, k - 1);
      assert Step(ws[k - 1], events[k - 1], ws[k]);
      StepTracked(ws[k - 1], events[k - 1]);
    }
  }

  /** A publication meets, under the stamp of the content it validated, another content
      that validation rejects, on a row that takes a version. */
  ghost predicate Slips(w: World, e: Event) {
    && e.Publish? && e.session < |w.sessions|
    && !w.workflow.deleted && w.workflow.status != Archived
    && w.workflow.updatedAt == w.sessions[e.session].copy.updatedAt
    && w.workflow.definition != w.sessions[e.session].copy.definition
    && !FaultFree(w.workflow.definition)
  }

  lemma SlipStep(w: World, e: Event)
    requires Enabled(w, e) && Tracked(w) && AllAccepted(w.versions)
    ensures AllAccepted(Next(w, e).versions) <==> !Slips(w, e)
  {
    if e.Publish? {
      assert SessionFits(w, w.sessions[e.session]);
      var v := Next(w, e);
      if |v.versions| > |w.versions| {
        assert v.versions[|w.versions|].definition == w.workflow.definition;
      }
    }
  }

  ghost predicate NeverSlips(ws: seq<World>, events: seq<Event>)
    requires |ws| == |events| + 1
  {
    forall i | 0 <= i < |events| :: !Slips(ws[i], events[i])
  }

  lemma {:induction false} UnslippedAccepted(ws: seq<World>, events: seq<Event>, k: nat)
    requires Run(ws, events) && k < |ws| && NeverSlips(ws, events)
    ensures AllAccepted(ws[k].versions)
  {
    if k > 0 {
      UnslippedAccepted(ws, events, k - 1);
      AlwaysTracked(ws, events, k - 1);
      assert Step(ws[k - 1], events[k - 1], ws[k]);
      SlipStep(ws[k - 1], events[k - 1]);
    }
  }

  /** The exact condition, for every run: all snapshots ever stored passed validation if
      and only if no publication meets a rejected content under the stamp of the one it
      validated. */
  lemma AcceptedIffNeverSlips(ws: seq<World>, events: seq<Event>)
    requires Run(ws, events)
    ensures (forall k | 0 <= k < |ws| :: AllAccepted(ws[k].versions)) <==> NeverSlips(ws, events)
  {
    if NeverSlips(ws, events) {
      forall k | 0 <= k < |ws|
        ensures AllAccepted(ws[k].versions)
      {
        UnslippedAccepted(ws, events, k);
      }
    }
    if forall k | 0 <= k < |ws| :: AllAccepted(ws[k].versions) {
      forall i | 0 <= i < |events|
        ensures !Slips(ws[i], events[i])
      {
        AlwaysTracked(ws, events, i);
        assert Step(ws[i], events[i], ws[i + 1]) && AllAccepted(ws[i].versions) && AllAccepted(ws[i + 1].versions);
        SlipStep(ws[i], events[i]);
      }
    }
  }

  /** If stamps tell contents apart, every stored snapshot passed validation. */
  lemma SnapshotsAccepted(ws: seq<World>, events: seq<Event>, k: nat)
    requires Run(ws, events) && k < |ws| && Telling(ws[|events|].history)
    ensures Tracked(ws[k]) && AllAccepted(ws[k].versions)
  {
    AlwaysTracked(ws, events, k);
    forall i | 0 <= i < |events|
      ensures !Slips(ws[i], events[i])
    {
      AlwaysTracked(ws, events, i);
      VersionsNumberedForever(ws, events, i, |events|);
      assert forall x | x in ws[i].history :: x in ws[|events|].history;
      if events[i].Publish? && events[i].session < |ws[i].sessions| {
        assert SessionFits(ws[i], ws[i].sessions[events[i].session]);
      }
    }
    UnslippedAccepted(ws, events, k);
  }

  /** ... and so is a definition the executor can make progress on. */
  lemma SnapshotsSound(ws: seq<World>, events: seq<Event>, k: nat, i: nat)
    requires Run(ws, events) && k < |ws| && Telling(ws[|events|].history) && i < |ws[k].versions|
    ensures Sound(ws[k].versions[i].definition) && ws[k].versions[i].number == i + 1
  {
    SnapshotsAccepted(ws, events, k);
    VersionsNumberedForever(ws, events, k, k);
    AcceptedIffSound(ws[k].versions[i].definition);
  }

  /** In every run that starts from a draft, a row that says published has the content of
      the latest version: an edit makes it a draft again. */
  lemma {:induction false} PublishedIsLatest(ws: seq<World>, events: seq<Event>, k: nat)
    requires Run(ws, events) && k < |ws| && ws[0].workflow.status != Published && ws[k].workflow.status == Published
    ensures ws[k].versions != [] && ws[k].versions[|ws[k].versions| - 1].definition == ws[k].workflow.definition
  {
    if k > 0 {
      assert Step(ws[k - 1], events[k - 1], ws[k]);
      if ws[k - 1].workflow.status == Published {
        PublishedIsLatest(ws, events, k - 1);
      }
    }
  }

  /** An edit that lands between validation and publication: a rejected definition is
      stored exactly when its stamp repeats the one that was validated. */
  lemma EditBehindValidation(good: Definition, bad: Definition, read: int, written: int, at: int)
    returns (ws: seq<World>, events: seq<Event>)
    requires FaultFree(good) && !FaultFree(bad)
    ensures Run(ws, events) && ws[0].workflow == WorkflowRow(good, Draft, read, false)
    ensures events == [Fetch, Validate(0), Fetch, Write(1, Some(bad), written), Publish(0, at)]
    ensures !AllAccepted(ws[5].versions) <==> written == read
    ensures written == read ==> ws[5].versions == [Version(1, bad)]
  {
    var w0 := World(WorkflowRow(good, Draft, read, false), [], [], [(read, good)]);
    events := [Fetch, Validate(0), Fetch, Write(1, Some(bad), written), Publish(0, at)];
    var w1 := Next(w0, events[0]);
    var w2 := Next(w1, events[1]);
    var w3 := Next(w2, events[2]);
    var w4 := Next(w3, events[3]);
    var w5 := Next(w4, events[4]);
    ws := [w0, w1, w2, w3, w4, w5];
    if written == read {
      assert w5.versions[0].definition == bad;
    }
  }
}
