/**
 * Cloud tasks in the in-memory store: creation bound to an idempotency key and a request
 * fingerprint, the compare-and-set steps of a task's life, and the event log of each task.
 */
module CloudTasks {
  import opened Prelude

  datatype Status = Pending | Running | Succeeded | Failed | Cancelled | TimedOut

  predicate Terminal(s: Status) {
    s != Pending && s != Running
  }

  datatype Owner = Owner(tenantId: string, deviceId: string, agentId: string)

  /** The owner-scoped idempotency key; a tuple, so no two owners share a key. */
  datatype Key = Key(owner: Owner, key: string)

  datatype Placeholder = Placeholder(fingerprint: string, inputDigest: string)

  /** Until usage is admitted a task stores only the placeholder of its request. */
  datatype Input = Staged(placeholder: Placeholder) | Real(text: string)

  datatype Task = Task(
    owner: Owner, kind: string, status: Status, input: Input, output: Option<string>, error: Option<string>,
    createdAt: int, updatedAt: int)

  /** The event type is named after the status it reports (`task.accepted` for pending, and so on). */
  datatype Event = Event(id: nat, status: Status)

  datatype State = State(
    tasks: map<nat, Task>, events: map<nat, seq<Event>>, idempotency: map<Key, nat>,
    fingerprints: map<nat, string>, taskSeq: nat, eventSeq: nat)

  const EMPTY := State(map[], map[], map[], map[], 0, 0)

  const LEGACY_UNBOUND := "legacy-unbound"

  // ---------------------------------------------------------------- formats

  predicate IsHex(c: char) { '0' <= c <= '9' || 'a' <= c <= 'f' }

  predicate IsDigest(s: string) {
    |s| == 64 && forall i :: 0 <= i < |s| ==> IsHex(s[i])
  }

  predicate IsFingerprint(s: string) {
    |s| == 67 && s[..3] == "v1:" && IsDigest(s[3..])
  }

  predicate IsPlaceholder(p: Placeholder) {
    IsFingerprint(p.fingerprint) && IsDigest(p.inputDigest)
  }

  /** None stands for a caller without a fingerprint; the result None for a refused one. */
  function Normalize(fingerprint: Option<string>): Option<string> {
    match fingerprint
    case None => Some(LEGACY_UNBOUND)
    case Some(f) => if f == LEGACY_UNBOUND || IsFingerprint(f) then Some(f) else None
  }

  // ---------------------------------------------------------------- steps

  /** Append the event of a task's current status. */
  function Emit(s: State, id: nat, status: Status): State {
    var event := Event(s.eventSeq + 1, status);
    s.(eventSeq := s.eventSeq + 1,
       events := if id in s.events then s.events[id := s.events[id] + [event]] else s.events)
  }

  /** `findTaskByIdempotency`. */
  function Find(s: State, key: Key): (r: Option<nat>)
    ensures r.Some? ==> r.value in s.tasks && r.value in s.fingerprints
  {
    if key in s.idempotency && s.idempotency[key] in s.tasks && s.idempotency[key] in s.fingerprints
    then Some(s.idempotency[key])
    else None
  }

  datatype Created = Fresh(id: nat) | Existing(id: nat) | Conflict

  /** Enter a new task in the four tables, with the log of its acceptance. */
  function Register(s: State, key: Key, task: Task, fingerprint: string): State {
    var id := s.taskSeq + 1;
    State(s.tasks[id := task], s.events[id := [Event(s.eventSeq + 1, Pending)]], s.idempotency[key := id],
          s.fingerprints[id := fingerprint], id, s.eventSeq + 1)
  }

  /** `createTask`. */
  function Create(s: State, key: Key, kind: string, input: Input, fingerprint: Option<string>, now: int): (State, Created) {
    var normalized := Normalize(fingerprint);
    var found := Find(s, key);
    if normalized.None? then (s, Conflict)
    else if found.Some? then
      var bound := s.fingerprints[found.value];
      (s, if bound == LEGACY_UNBOUND || bound != normalized.value then Conflict else Existing(found.value))
    else
      var id := s.taskSeq + 1;
      (Register(s, key, Task(key.owner, kind, Pending, input, None, None, now, now), normalized.value), Fresh(id))
  }

  /** The task is still waiting for the admission of exactly this request. */
  predicate AwaitsAdmission(s: State, id: nat, p: Placeholder) {
    IsPlaceholder(p) && id in s.tasks && s.tasks[id].status == Pending && s.tasks[id].input == Staged(p)
  }

  /** `discardPendingTask`. */
  function Discard(s: State, id: nat, p: Placeholder): State {
    if !AwaitsAdmission(s, id, p) then s
    else
      s.(tasks := s.tasks - {id}, events := s.events - {id}, fingerprints := s.fingerprints - {id},
         idempotency := map k | k in s.idempotency && s.idempotency[k] != id :: s.idempotency[k])
  }

  /** `admitPendingTaskInput`. */
  function Admit(s: State, id: nat, p: Placeholder, text: string, now: int): State {
    if !AwaitsAdmission(s, id, p) then s
    else s.(tasks := s.tasks[id := s.tasks[id].(input := Real(text), updatedAt := now)])
  }

  /** `claimPendingTask`. */
  function Claim(s: State, id: nat, now: int): State {
    if id !in s.tasks || s.tasks[id].status != Pending then s
    else Emit(s.(tasks := s.tasks[id := s.tasks[id].(status := Running, updatedAt := now)]), id, Running)
  }

  datatype Patch = Patch(output: Option<string>, error: Option<string>)

  function Patched(t: Task, patch: Patch): Task {
    t.(output := if patch.output.Some? then patch.output else t.output,
       error := if patch.error.Some? then patch.error else t.error)
  }

  /** `transitionIfStatus`. */
  function TransitionIf(s: State, id: nat, expected: set<Status>, status: Status, patch: Patch, now: int): State {
    if id !in s.tasks || s.tasks[id].status !in expected then s
    else
      var task := Patched(s.tasks[id], patch).(status := status, updatedAt := now);
      Emit(s.(tasks := s.tasks[id := task]), id, status)
  }

  /** The two uses the routes make of it: a worker completing, and a caller cancelling. */
  function Complete(s: State, id: nat, status: Status, patch: Patch, now: int): State
    requires status in {Succeeded, Failed, TimedOut}
  {
    TransitionIf(s, id, {Running}, status, patch, now)
  }

  function Cancel(s: State, id: nat, now: int): State {
    TransitionIf(s, id, {Pending, Running}, Cancelled, Patch(None, None), now)
  }

  // ---------------------------------------------------------------- the event log

  /** Accepted, then optionally started, then optionally one terminal event; only a cancel may skip the start. */
  predicate Story(log: seq<Event>) {
    && 1 <= |log| <= 3
    && log[0].status == Pending
    && (|log| == 2 ==> log[1].status == Running || log[1].status == Cancelled)
    && (|log| == 3 ==> log[1].status == Running && Terminal(log[2].status))
  }

  /** The status changes the routes make. */
  predicate Edge(from: Status, to: Status) {
    (from == Pending && (to == Running || to == Cancelled)) || (from == Running && Terminal(to))
  }

  predicate LogOk(log: seq<Event>, status: Status, eventSeq: nat) {
    && Story(log)
    && log[|log| - 1].status == status
    && (|log| >= 2 ==> log[0].id < log[1].id)
    && (|log| >= 3 ==> log[1].id < log[2].id)
    && log[|log| - 1].id <= eventSeq
  }

  /** Every live task has a well-formed log that tells its status. */
  ghost predicate LogsOk(tasks: map<nat, Task>, events: map<nat, seq<Event>>, eventSeq: nat) {
    && events.Keys == tasks.Keys
    && forall id :: id in tasks ==> LogOk(events[id], tasks[id].status, eventSeq)
  }

  /** Every live task is named by exactly one idempotency key, of its own owner. */
  ghost predicate KeysOk(tasks: map<nat, Task>, idempotency: map<Key, nat>) {
    && (forall k :: k in idempotency ==> idempotency[k] in tasks && tasks[idempotency[k]].owner == k.owner)
    && (forall k, k' :: k in idempotency && k' in idempotency && idempotency[k] == idempotency[k'] ==> k == k')
    && (forall id :: id in tasks ==> Named(idempotency, id))
  }

  ghost predicate Named(idempotency: map<Key, nat>, id: nat) {
    exists k :: k in idempotency && idempotency[k] == id
  }

  /** Logs tell the status, and the four tables name the same tasks. */
  ghost predicate Valid(s: State) {
    && LogsOk(s.tasks, s.events, s.eventSeq)
    && KeysOk(s.tasks, s.idempotency)
    && Numbered(s.tasks, s.fingerprints, s.taskSeq)
  }

  /** Task numbers in use have been issued, and every task has a fingerprint. */
  ghost predicate Numbered(tasks: map<nat, Task>, fingerprints: map<nat, string>, taskSeq: nat) {
    fingerprints.Keys == tasks.Keys && forall id :: id in tasks ==> id <= taskSeq
  }

  /** Appending the event of an allowed status change keeps a log well formed. */
  lemma LogAppend(log: seq<Event>, from: Status, to: Status, eventSeq: nat)
    requires LogOk(log, from, eventSeq)
    requires Edge(from, to)
    ensures LogOk(log + [Event(eventSeq + 1, to)], to, eventSeq + 1)
  {
  }

  lemma CreateKeepsKeys(tasks: map<nat, Task>, idempotency: map<Key, nat>, key: Key, id: nat, task: Task)
    requires KeysOk(tasks, idempotency) && id !in tasks && key !in idempotency && task.owner == key.owner
    ensures KeysOk(tasks[id := task], idempotency[key := id])
  {
    var idempotency' := idempotency[key := id];
    assert key in idempotency' && idempotency'[key] == id;
    forall i | i in tasks ensures Named(idempotency', i) {
      var k :| k in idempotency && idempotency[k] == i;
      assert k in idempotency' && idempotency'[k] == i;
    }
  }

  lemma DiscardKeepsKeys(tasks: map<nat, Task>, idempotency: map<Key, nat>, id: nat)
    requires KeysOk(tasks, idempotency)
    ensures KeysOk(tasks - {id}, map k | k in idempotency && idempotency[k] != id :: idempotency[k])
  {
    var idempotency' := map k | k in idempotency && idempotency[k] != id :: idempotency[k];
    forall i | i in tasks - {id} ensures Named(idempotency', i) {
      var k :| k in idempotency && idempotency[k] == i;
      assert k in idempotency' && idempotency'[k] == i;
    }
  }

  lemma KeptKeys(before: map<Key, nat>, after: map<Key, nat>, id: nat)
    requires forall k :: k in after <==> k in before && before[k] != id
    requires forall k :: k in after ==> after[k] == before[k]
    ensures after == map k | k in before && before[k] != id :: before[k]
  {
  }

  lemma UpdateKeepsKeys(tasks: map<nat, Task>, idempotency: map<Key, nat>, id: nat, task: Task)
    requires KeysOk(tasks, idempotency) && id in tasks && task.owner == tasks[id].owner
    ensures KeysOk(tasks[id := task], idempotency)
  {
  }

  /** An event number not issued yet starts a log, or continues one along an allowed edge. */
  lemma LogsGrow(tasks: map<nat, Task>, events: map<nat, seq<Event>>, eventSeq: nat, id: nat, task: Task, log: seq<Event>)
    requires LogsOk(tasks, events, eventSeq) && LogOk(log, task.status, eventSeq + 1)
    ensures LogsOk(tasks[id := task], events[id := log], eventSeq + 1)
  {
    var tasks', events' := tasks[id := task], events[id := log];
    forall i | i in tasks' ensures LogOk(events'[i], tasks'[i].status, eventSeq + 1) {
      if i != id {
        LogLater(events[i], tasks[i].status, eventSeq);
      }
    }
  }

  lemma LogLater(log: seq<Event>, status: Status, eventSeq: nat)
    requires LogOk(log, status, eventSeq)
    ensures LogOk(log, status, eventSeq + 1)
  {
  }

  lemma FreshLog(events: map<nat, seq<Event>>, id: nat, log: seq<Event>)
    ensures events[id := []][id := [] + log] == events[id := log]
  {
    assert [] + log == log;
  }

  lemma ValidParts(s: State, tasks: map<nat, Task>, events: map<nat, seq<Event>>, idempotency: map<Key, nat>,
                   fingerprints: map<nat, string>, taskSeq: nat, eventSeq: nat)
    requires s == State(tasks, events, idempotency, fingerprints, taskSeq, eventSeq)
    requires LogsOk(tasks, events, eventSeq) && KeysOk(tasks, idempotency) && Numbered(tasks, fingerprints, taskSeq)
    ensures Valid(s)
  {
  }

  lemma NextNumber(tasks: map<nat, Task>, fingerprints: map<nat, string>, taskSeq: nat, task: Task, fingerprint: string)
    requires Numbered(tasks, fingerprints, taskSeq)
    ensures Numbered(tasks[taskSeq + 1 := task], fingerprints[taskSeq + 1 := fingerprint], taskSeq + 1)
    ensures taskSeq + 1 !in tasks
  {
  }

  lemma FirstEvent(eventSeq: nat)
    ensures LogOk([Event(eventSeq + 1, Pending)], Pending, eventSeq + 1)
  {
  }

  lemma RegisterKeepsValid(s: State, key: Key, task: Task, fingerprint: string)
    requires Valid(s) && key !in s.idempotency && task.owner == key.owner && task.status == Pending
    ensures Valid(Register(s, key, task, fingerprint))
  {
    hide KeysOk, LogsOk, LogOk, Numbered;
    var id, log := s.taskSeq + 1, [Event(s.eventSeq + 1, Pending)];
    FreshLog(s.events, id, log);
    NextNumber(s.tasks, s.fingerprints, s.taskSeq, task, fingerprint);
    assert KeysOk(s.tasks[id := task], s.idempotency[key := id]) by {
      CreateKeepsKeys(s.tasks, s.idempotency, key, id, task);
    }
    assert LogsOk(s.tasks[id := task], s.events[id := log], s.eventSeq + 1) by {
      FirstEvent(s.eventSeq);
      LogsGrow(s.tasks, s.events, s.eventSeq, id, task, log);
    }
    ValidParts(Register(s, key, task, fingerprint), s.tasks[id := task], s.events[id := log], s.idempotency[key := id],
      s.fingerprints[id := fingerprint], id, s.eventSeq + 1);
  }

  lemma CreateKeepsValid(s: State, key: Key, kind: string, input: Input, fingerprint: Option<string>, now: int)
    requires Valid(s)
    ensures Valid(Create(s, key, kind, input, fingerprint, now).0)
  {
    if Normalize(fingerprint).Some? && Find(s, key).None? {
      RegisterKeepsValid(s, key, Task(key.owner, kind, Pending, input, None, None, now, now), Normalize(fingerprint).value);
    }
  }

  lemma DiscardKeepsValid(s: State, id: nat, p: Placeholder)
    requires Valid(s)
    ensures Valid(Discard(s, id, p))
  {
    DiscardKeepsKeys(s.tasks, s.idempotency, id);
  }

  /** A status change along the allowed edges keeps the store valid. */
  lemma MoveKeepsValid(s: State, id: nat, task: Task)
    requires Valid(s) && id in s.tasks && task.owner == s.tasks[id].owner
    requires Edge(s.tasks[id].status, task.status)
    ensures Valid(Emit(s.(tasks := s.tasks[id := task]), id, task.status))
  {
    hide KeysOk, LogOk, Edge;
    var log := s.events[id] + [Event(s.eventSeq + 1, task.status)];
    LogAppend(s.events[id], s.tasks[id].status, task.status, s.eventSeq);
    LogsGrow(s.tasks, s.events, s.eventSeq, id, task, log);
    UpdateKeepsKeys(s.tasks, s.idempotency, id, task);
    ValidParts(Emit(s.(tasks := s.tasks[id := task]), id, task.status),
      s.tasks[id := task], s.events[id := log], s.idempotency, s.fingerprints, s.taskSeq, s.eventSeq + 1);
  }

  lemma AdmitKeepsValid(s: State, id: nat, p: Placeholder, text: string, now: int)
    requires Valid(s)
    ensures Valid(Admit(s, id, p, text, now))
  {
    if AwaitsAdmission(s, id, p) {
      UpdateKeepsKeys(s.tasks, s.idempotency, id, s.tasks[id].(input := Real(text), updatedAt := now));
    }
  }

  lemma ClaimKeepsValid(s: State, id: nat, now: int)
    requires Valid(s)
    ensures Valid(Claim(s, id, now))
  {
    if id in s.tasks && s.tasks[id].status == Pending {
      MoveKeepsValid(s, id, s.tasks[id].(status := Running, updatedAt := now));
    }
  }

  lemma CompleteKeepsValid(s: State, id: nat, status: Status, patch: Patch, now: int)
    requires Valid(s) && status in {Succeeded, Failed, TimedOut}
    ensures Valid(Complete(s, id, status, patch, now))
  {
    if id in s.tasks && s.tasks[id].status == Running {
      MoveKeepsValid(s, id, Patched(s.tasks[id], patch).(status := status, updatedAt := now));
    }
  }

  lemma CancelKeepsValid(s: State, id: nat, now: int)
    requires Valid(s)
    ensures Valid(Cancel(s, id, now))
  {
    hide Valid;
    if id in s.tasks && s.tasks[id].status in {Pending, Running} {
      MoveKeepsValid(s, id, s.tasks[id].(status := Cancelled, updatedAt := now));
    }
  }

  /**
   * The log alone determines the status, never holds more than one start or one terminal event,
   * and grows in strictly increasing event order.
   */
  lemma LogTellsStatus(s: State, id: nat)
    requires Valid(s) && id in s.tasks
    ensures s.tasks[id].status == s.events[id][|s.events[id]| - 1].status
    ensures Count(s.events[id], (e: Event) => e.status == Running) <= 1
    ensures Count(s.events[id], (e: Event) => Terminal(e.status)) == (if Terminal(s.tasks[id].status) then 1 else 0)
    ensures forall i, j :: 0 <= i < j < |s.events[id]| ==> s.events[id][i].id < s.events[id][j].id
  {
    LogCounts(s.events[id], s.tasks[id].status, s.eventSeq);
  }

  lemma LogCounts(log: seq<Event>, status: Status, eventSeq: nat)
    requires LogOk(log, status, eventSeq)
    ensures Count(log, (e: Event) => e.status == Running) <= 1
    ensures Count(log, (e: Event) => Terminal(e.status)) == if Terminal(status) then 1 else 0
  {
    var n := |log| - 1;
    CountZero(log[..1], (e: Event) => e.status == Running);
    CountZero(log[..1], (e: Event) => Terminal(e.status));
    assert log[..n + 1] == log;
    if n == 2 {
      assert log[..2] == log[..1] + [log[1]];
      CountSnoc(log[..1], log[1], (e: Event) => e.status == Running);
      CountSnoc(log[..1], log[1], (e: Event) => Terminal(e.status));
    }
    if n > 0 {
      assert log == log[..n] + [log[n]];
      CountSnoc(log[..n], log[n], (e: Event) => e.status == Running);
      CountSnoc(log[..n], log[n], (e: Event) => Terminal(e.status));
    }
  }

  // ---------------------------------------------------------------- the store

  class TaskStore {
    var tasks: map<nat, Task>
    var events: map<nat, seq<Event>>
    var idempotency: map<Key, nat>
    var fingerprints: map<nat, string>
    var taskSeq: nat
    var eventSeq: nat

    ghost function View(): State
      reads this
    {
      State(tasks, events, idempotency, fingerprints, taskSeq, eventSeq)
    }

    constructor ()
      ensures View() == EMPTY
    {
      tasks, events, idempotency, fingerprints, taskSeq, eventSeq := map[], map[], map[], map[], 0, 0;
    }

    method EmitEvent(id: nat, status: Status)
      modifies this`events, this`eventSeq
      ensures View() == Emit(old(View()), id, status)
    {
      eventSeq := eventSeq + 1;
      if id in events {
        events := events[id := events[id] + [Event(eventSeq, status)]];
      }
    }

    method CreateTask(key: Key, kind: string, input: Input, fingerprint: Option<string>, now: int) returns (r: Created)
      modifies this
      ensures (View(), r) == Create(old(View()), key, kind, input, fingerprint, now)
    {
      var normalized := Normalize(fingerprint);
      if normalized.None? {
        return Conflict;
      }
      if key in idempotency && idempotency[key] in tasks && idempotency[key] in fingerprints {
        var bound := fingerprints[idempotency[key]];
        if bound == LEGACY_UNBOUND || bound != normalized.value {
          return Conflict;
        }
        return Existing(idempotency[key]);
      }
      taskSeq := taskSeq + 1;
      tasks := tasks[taskSeq := Task(key.owner, kind, Pending, input, None, None, now, now)];
      events := events[taskSeq := []];
      idempotency := idempotency[key := taskSeq];
      fingerprints := fingerprints[taskSeq := normalized.value];
      EmitEvent(taskSeq, Pending);
      FreshLog(old(events), taskSeq, [Event(eventSeq, Pending)]);
      r := Fresh(taskSeq);
    }

    /** Drop every idempotency key of a task. */
    method ForgetKeys(id: nat)
      modifies this`idempotency
      ensures idempotency == map k | k in old(idempotency) && old(idempotency)[k] != id :: old(idempotency)[k]
    {
      var todo := idempotency.Keys;
      while todo != {}
        invariant forall k :: k in todo ==> k in idempotency
        invariant forall k :: k in idempotency <==> k in old(idempotency) && (k in todo || old(idempotency)[k] != id)
        invariant forall k :: k in idempotency ==> idempotency[k] == old(idempotency)[k]
        decreases |todo|
      {
        var k :| k in todo;
        if idempotency[k] == id {
          idempotency := idempotency - {k};
        }
        todo := todo - {k};
      }
      KeptKeys(old(idempotency), idempotency, id);
    }

    method DiscardPendingTask(id: nat, p: Placeholder) returns (discarded: bool)
      modifies this
      ensures View() == Discard(old(View()), id, p)
      ensures discarded == AwaitsAdmission(old(View()), id, p)
    {
      discarded := IsPlaceholder(p) && id in tasks && tasks[id].status == Pending && tasks[id].input == Staged(p);
      if !discarded {
        return;
      }
      hide IsPlaceholder;
      tasks := tasks - {id};
      events := events - {id};
      fingerprints := fingerprints - {id};
      ForgetKeys(id);
    }

    method AdmitPendingTaskInput(id: nat, p: Placeholder, text: string, now: int) returns (admitted: bool)
      modifies this
      ensures View() == Admit(old(View()), id, p, text, now)
      ensures admitted == AwaitsAdmission(old(View()), id, p)
    {
      admitted := IsPlaceholder(p) && id in tasks && tasks[id].status == Pending && tasks[id].input == Staged(p);
      if admitted {
        tasks := tasks[id := tasks[id].(input := Real(text), updatedAt := now)];
      }
    }

    method ClaimPendingTask(id: nat, now: int) returns (claimed: bool)
      modifies this
      ensures View() == Claim(old(View()), id, now)
      ensures claimed <==> id in old(tasks) && old(tasks)[id].status == Pending
    {
      claimed := id in tasks && tasks[id].status == Pending;
      if claimed {
        tasks := tasks[id := tasks[id].(status := Running, updatedAt := now)];
        EmitEvent(id, Running);
      }
    }

    method TransitionIfStatus(id: nat, expected: set<Status>, status: Status, patch: Patch, now: int) returns (moved: bool)
      modifies this
      ensures View() == TransitionIf(old(View()), id, expected, status, patch, now)
      ensures moved <==> id in old(tasks) && old(tasks)[id].status in expected
    {
      moved := id in tasks && tasks[id].status in expected;
      if moved {
        var task := tasks[id];
        if patch.output.Some? { task := task.(output := patch.output); }
        if patch.error.Some? { task := task.(error := patch.error); }
        tasks := tasks[id := task.(status := status, updatedAt := now)];
        EmitEvent(id, status);
      }
    }
  }
}
