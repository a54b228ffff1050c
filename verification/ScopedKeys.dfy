/** The sandbox-scoped API key: a plaintext Secret beside the pod and a hashed record in another
    namespace, created and revoked without a transaction.

    The state machine works one API call at a time. Any number of create attempts interleave;
    each may stop between two calls, and each call may fail or be applied with its answer lost.
 */
module ScopedKeys {
  import opened Wrappers

  type Key = string

  // SHA-256, taken to be injective.
  datatype Hash = HashOf(key: Key)

  // The call was applied and answered, failed without effect, or was applied and reported failed.
  datatype Outcome = Applied | Rejected | Lost

  // Where a create attempt stands; the next step makes the named call.
  datatype Attempt =
    | ReadPlaintext
    | ReadStoredRecord(key: Key)
    | CreateStoredRecord(key: Key)
    | ReadMintedRecord(key: Key)
    | CreateMintedRecord(key: Key)
    | CreatePlaintext(key: Key)

  // Where a deletion pass stands.
  datatype Pass = Idle | FindPlaintext | FindRecord(key: Key) | DeleteRecord(key: Key) | RemoveFinalizer

  // `minted` are all keys ever generated, `abandoned` those whose attempt ended without storing
  // them, and `leaked` those of the abandoned whose attempt had already written their record: it
  // ended at the plaintext's create, or never heard that the record's create was applied. All
  // three are history, no call reads them.
  datatype System = System(
    plaintext: Option<Key>,
    records: set<Hash>,
    attempts: map<nat, Attempt>,
    deleting: bool,
    finalizer: bool,
    pass: Pass,
    minted: set<Key>,
    abandoned: set<Key>,
    leaked: set<Key>
  )

  const INITIAL := System(None, {}, map[], false, true, Idle, {}, {}, {})

  function Held(a: Attempt): set<Key> {
    match a
    case ReadMintedRecord(key) => {key}
    case CreateMintedRecord(key) => {key}
    case CreatePlaintext(key) => {key}
    case _ => {}
  }

  // An attempt ends, by returning or by crashing; a key it holds is never stored by it.
  function End(s: System, id: nat): System
    requires id in s.attempts
  {
    var a := s.attempts[id];
    s.(attempts := s.attempts - {id}, abandoned := s.abandoned + Held(a),
       leaked := if a.CreatePlaintext? then s.leaked + Held(a) else s.leaked)
  }

  function Goto(s: System, id: nat, a: Attempt): System {
    s.(attempts := s.attempts[id := a])
  }

  // The next call of attempt `id`. `candidate` is the random key it would mint.
  function Advance(s: System, id: nat, o: Outcome, candidate: Key): System
    requires id in s.attempts
  {
    match s.attempts[id]
    case ReadPlaintext =>
      if o != Applied then End(s, id)
      else if s.plaintext.Some? then
        if s.plaintext.value == "" then End(s, id) else Goto(s, id, ReadStoredRecord(s.plaintext.value))
      else Goto(s, id, ReadMintedRecord(candidate)).(minted := s.minted + {candidate})
    case ReadStoredRecord(key) =>
      if o == Applied && HashOf(key) in s.records then End(s, id) else Goto(s, id, CreateStoredRecord(key))
    case CreateStoredRecord(key) =>
      if o == Rejected then End(s, id) else End(s.(records := s.records + {HashOf(key)}), id)
    case ReadMintedRecord(key) =>
      Goto(s, id, if o == Applied && HashOf(key) in s.records then CreatePlaintext(key) else CreateMintedRecord(key))
    case CreateMintedRecord(key) =>
      if o == Rejected then End(s, id)
      else
        var s' := s.(records := s.records + {HashOf(key)});
        if o == Lost then End(s'.(leaked := s'.leaked + {key}), id) else Goto(s', id, CreatePlaintext(key))
    case CreatePlaintext(key) =>
      if o == Rejected || s.plaintext.Some? then End(s, id)
      else s.(plaintext := Some(key), attempts := s.attempts - {id})
  }

  function AdvancePass(s: System, o: Outcome): System {
    match s.pass
    case Idle => s
    case FindPlaintext =>
      if o != Applied then s.(pass := Idle)
      else if s.plaintext.None? || s.plaintext.value == "" then s.(pass := RemoveFinalizer)
      else s.(pass := FindRecord(s.plaintext.value))
    case FindRecord(key) =>
      if o != Applied then s.(pass := Idle)
      else s.(pass := if HashOf(key) in s.records then DeleteRecord(key) else RemoveFinalizer)
    case DeleteRecord(key) =>
      if o == Rejected then s.(pass := Idle)
      else s.(records := s.records - {HashOf(key)}, pass := if o == Applied then RemoveFinalizer else Idle)
    case RemoveFinalizer =>
      s.(pass := Idle, finalizer := s.finalizer && o == Rejected)
  }

  datatype Step =
    | Spawn(id: nat)                              // a reconcile reaches the key step
    | Call(id: nat, outcome: Outcome, candidate: Key)
    | Crash(id: nat)
    | RequestDelete
    | StartPass
    | PassCall(outcome: Outcome)
    | CrashPass

  // A new attempt starts only on a live sandbox. Passes over one sandbox do not overlap its own
  // reconciles, so a deletion pass starts once no attempt is left.
  predicate Allowed(s: System, step: Step) {
    match step
    case Spawn(id) => !s.deleting && s.finalizer && id !in s.attempts
    case Call(id, _, candidate) =>
      id in s.attempts && (s.attempts[id].ReadPlaintext? ==> candidate != "" && candidate !in s.minted)
    case Crash(id) => id in s.attempts
    case StartPass => s.deleting && s.finalizer && s.pass.Idle? && s.attempts == map[]
    case _ => true
  }

  function Next(s: System, step: Step): System
    requires Allowed(s, step)
  {
    match step
    case Spawn(id) => Goto(s, id, ReadPlaintext)
    case Call(id, o, candidate) => Advance(s, id, o, candidate)
    case Crash(id) => End(s, id)
    case RequestDelete => s.(deleting := true)
    case StartPass => s.(pass := FindPlaintext)
    case PassCall(o) => AdvancePass(s, o)
    case CrashPass => s.(pass := Idle)
  }

  // The systems along a run.
  ghost predicate IsRun(states: seq<System>, steps: seq<Step>) {
    && |states| == |steps| + 1
    && states[0] == INITIAL
    && forall k | 0 <= k < |steps| :: Allowed(states[k], steps[k]) && states[k + 1] == Next(states[k], steps[k])
  }

  /******* The invariant *******/

  ghost predicate StoredHasRecord(s: System) {
    s.plaintext.Some? ==> HashOf(s.plaintext.value) in s.records
  }

  ghost predicate Revoked(s: System) {
    s.plaintext.Some? ==> HashOf(s.plaintext.value) !in s.records
  }

  ghost predicate AttemptInv(s: System, a: Attempt) {
    && (forall key | key in Held(a) :: key in s.minted && key !in s.abandoned && s.plaintext != Some(key))
    && (a.CreatePlaintext? ==> HashOf(a.key) in s.records)
    && (a.ReadStoredRecord? || a.CreateStoredRecord? ==> s.plaintext == Some(a.key))
  }

  // Every minted key is stored, held by exactly one attempt, or abandoned.
  ghost predicate Conserved(s: System) {
    && s.abandoned <= s.minted
    && "" !in s.minted
    && (s.plaintext.Some? ==> s.plaintext.value in s.minted - s.abandoned)
    && (forall h | h in s.records :: h.key in s.minted)
    && (forall i, j | i in s.attempts && j in s.attempts && i != j :: Held(s.attempts[i]) !! Held(s.attempts[j]))
    && (forall key | key in s.minted ::
          key in s.abandoned || s.plaintext == Some(key) || exists i :: i in s.attempts && key in Held(s.attempts[i]))
  }

  ghost predicate PassInv(s: System) {
    && (!s.pass.Idle? || !s.finalizer ==> s.deleting && s.attempts == map[])
    && (s.pass.FindRecord? || s.pass.DeleteRecord? ==> s.plaintext == Some(s.pass.key))
    && (s.pass.RemoveFinalizer? || !s.finalizer ==> Revoked(s))
    && (!s.deleting ==> StoredHasRecord(s))
  }

  ghost predicate Inv(s: System) {
    && (forall i | i in s.attempts :: AttemptInv(s, s.attempts[i]))
    && Conserved(s) && PassInv(s)
  }

  lemma EndKeepsInv(s: System, id: nat)
    requires Inv(s) && id in s.attempts
    ensures Inv(End(s, id))
  {
    var s' := End(s, id);
    forall key | key in s'.minted
      ensures key in s'.abandoned || s'.plaintext == Some(key)
              || exists i :: i in s'.attempts && key in Held(s'.attempts[i])
    {
      if key !in s'.abandoned && s.plaintext != Some(key) {
        var i :| i in s.attempts && key in Held(s.attempts[i]);
        assert i in s'.attempts;
      }
    }
  }

  // Moving an attempt on without losing or gaining a key.
  lemma GotoKeepsInv(s: System, id: nat, a: Attempt)
    requires Inv(s) && id in s.attempts && Held(a) == Held(s.attempts[id]) && AttemptInv(s, a)
    ensures Inv(Goto(s, id, a))
  {
    var s' := Goto(s, id, a);
    forall key | key in s'.minted
      ensures key in s'.abandoned || s'.plaintext == Some(key)
              || exists i :: i in s'.attempts && key in Held(s'.attempts[i])
    {
      if key !in s.abandoned && s.plaintext != Some(key) {
        var i :| i in s.attempts && key in Held(s.attempts[i]);
        assert i in s'.attempts && key in Held(s'.attempts[i]);
      }
    }
  }

  lemma RecordKeepsInv(s: System, key: Key)
    requires Inv(s) && key in s.minted && s.finalizer && s.pass.Idle?
    ensures Inv(s.(records := s.records + {HashOf(key)}))
  {
    var s' := s.(records := s.records + {HashOf(key)});
    assert forall i | i in s'.attempts :: AttemptInv(s, s.attempts[i]);
    assert Conserved(s);
  }

  lemma MintKeepsInv(s: System, id: nat, candidate: Key)
    requires Inv(s) && id in s.attempts && s.attempts[id].ReadPlaintext?
    requires candidate != "" && candidate !in s.minted
    ensures Inv(Goto(s, id, ReadMintedRecord(candidate)).(minted := s.minted + {candidate}))
  {
    var s' := Goto(s, id, ReadMintedRecord(candidate)).(minted := s.minted + {candidate});
    forall i | i in s'.attempts ensures AttemptInv(s', s'.attempts[i]) {
      assert i in s.attempts && AttemptInv(s, s.attempts[i]);
    }
    forall key | key in s'.minted
      ensures key in s'.abandoned || s'.plaintext == Some(key)
              || exists i :: i in s'.attempts && key in Held(s'.attempts[i])
    {
      if key == candidate {
        assert key in Held(s'.attempts[id]);
      } else if key !in s.abandoned && s.plaintext != Some(key) {
        var i :| i in s.attempts && key in Held(s.attempts[i]);
        assert i in s'.attempts && key in Held(s'.attempts[i]);
      }
    }
    forall i, j | i in s'.attempts && j in s'.attempts && i != j
      ensures Held(s'.attempts[i]) !! Held(s'.attempts[j])
    {
      assert AttemptInv(s, s.attempts[i]) && AttemptInv(s, s.attempts[j]);
    }
  }

  lemma StoreKeepsInv(s: System, id: nat)
    requires Inv(s) && id in s.attempts && s.attempts[id].CreatePlaintext? && s.plaintext.None?
    ensures Inv(s.(plaintext := Some(s.attempts[id].key), attempts := s.attempts - {id}))
  {
    var key := s.attempts[id].key;
    var s' := s.(plaintext := Some(key), attempts := s.attempts - {id});
    assert AttemptInv(s, s.attempts[id]) && key in Held(s.attempts[id]);
    forall i | i in s'.attempts ensures AttemptInv(s', s'.attempts[i]) {
      assert AttemptInv(s, s.attempts[i]);
    }
    forall k | k in s'.minted
      ensures k in s'.abandoned || s'.plaintext == Some(k) || exists i :: i in s'.attempts && k in Held(s'.attempts[i])
    {
      if k !in s.abandoned && k != key {
        var i :| i in s.attempts && k in Held(s.attempts[i]);
        assert i in s'.attempts;
      }
    }
  }

  // The create that follows a mint; both answers leave the record if the call was applied.
  lemma CreateMintedKeepsInv(s: System, id: nat, o: Outcome)
    requires Inv(s) && id in s.attempts && s.attempts[id].CreateMintedRecord?
    ensures Inv(Advance(s, id, o, ""))
  {
    var a := s.attempts[id];
    assert AttemptInv(s, a) && a.key in Held(a);
    if o == Rejected {
      EndKeepsInv(s, id);
    } else {
      RecordKeepsInv(s, a.key);
      var s' := s.(records := s.records + {HashOf(a.key)});
      assert AttemptInv(s', a);
      if o == Lost {
        EndKeepsInv(s'.(leaked := s'.leaked + {a.key}), id);
      } else {
        GotoKeepsInv(s', id, CreatePlaintext(a.key));
      }
    }
  }

  lemma CreateStoredKeepsInv(s: System, id: nat, o: Outcome)
    requires Inv(s) && id in s.attempts && s.attempts[id].CreateStoredRecord?
    ensures Inv(Advance(s, id, o, ""))
  {
    var a := s.attempts[id];
    assert AttemptInv(s, a);
    if o == Rejected {
      EndKeepsInv(s, id);
    } else {
      RecordKeepsInv(s, a.key);
      EndKeepsInv(s.(records := s.records + {HashOf(a.key)}), id);
    }
  }

  lemma ReadPlaintextKeepsInv(s: System, id: nat, o: Outcome, candidate: Key)
    requires Inv(s) && Allowed(s, Call(id, o, candidate)) && s.attempts[id].ReadPlaintext?
    ensures Inv(Advance(s, id, o, candidate))
  {
    if o != Applied || (s.plaintext.Some? && s.plaintext.value == "") {
      EndKeepsInv(s, id);
    } else if s.plaintext.Some? {
      GotoKeepsInv(s, id, ReadStoredRecord(s.plaintext.value));
    } else {
      MintKeepsInv(s, id, candidate);
    }
  }

  lemma CallKeepsInv(s: System, id: nat, o: Outcome, candidate: Key)
    requires Inv(s) && Allowed(s, Call(id, o, candidate))
    ensures Inv(Advance(s, id, o, candidate))
  {
    var a := s.attempts[id];
    assert AttemptInv(s, a);
    match a
    case ReadPlaintext => ReadPlaintextKeepsInv(s, id, o, candidate);
    case ReadStoredRecord(key) =>
      if o == Applied && HashOf(key) in s.records { EndKeepsInv(s, id); }
      else { GotoKeepsInv(s, id, CreateStoredRecord(key)); }
    case CreateStoredRecord(key) => CreateStoredKeepsInv(s, id, o);
    case ReadMintedRecord(key) =>
      if o == Applied && HashOf(key) in s.records { GotoKeepsInv(s, id, CreatePlaintext(key)); }
      else { GotoKeepsInv(s, id, CreateMintedRecord(key)); }
    case CreateMintedRecord(key) => CreateMintedKeepsInv(s, id, o);
    case CreatePlaintext(key) =>
      if o == Rejected || s.plaintext.Some? { EndKeepsInv(s, id); }
      else { StoreKeepsInv(s, id); }
  }

  // Nothing but the deletion's own progress changes.
  lemma StatusKeepsInv(s: System, t: System)
    requires Inv(s) && t == s.(deleting := t.deleting, pass := t.pass) && PassInv(t)
    ensures Inv(t)
  {
    forall i | i in t.attempts ensures AttemptInv(t, t.attempts[i]) {
      assert AttemptInv(s, s.attempts[i]);
    }
  }

  lemma PassKeepsInv(s: System, o: Outcome)
    requires Inv(s)
    ensures Inv(AdvancePass(s, o))
  {
    if s.pass.Idle? {
      assert AdvancePass(s, o) == s;
    }
  }

  lemma InvStep(s: System, step: Step)
    requires Inv(s) && Allowed(s, step)
    ensures Inv(Next(s, step))
  {
    match step
    case Spawn(id) =>
      var s' := Next(s, step);
      assert forall i | i in s.attempts :: s'.attempts[i] == s.attempts[i];
    case Call(id, o, candidate) => CallKeepsInv(s, id, o, candidate);
    case Crash(id) => EndKeepsInv(s, id);
    case PassCall(o) => PassKeepsInv(s, o);
    case RequestDelete => StatusKeepsInv(s, Next(s, step));
    case StartPass => StatusKeepsInv(s, Next(s, step));
    case CrashPass => StatusKeepsInv(s, Next(s, step));
  }

  lemma {:induction false} RunInv(states: seq<System>, steps: seq<Step>, k: nat)
    requires IsRun(states, steps) && k < |states|
    ensures Inv(states[k])
  {
    if k > 0 {
      RunInv(states, steps, k - 1);
      assert states[k - 1 + 1] == Next(states[k - 1], steps[k - 1]);
      InvStep(states[k - 1], steps[k - 1]);
    }
  }

  /******* Crash consistency *******/

  // Nothing ever changes or removes a key once its plaintext is stored.
  lemma {:induction false} PlaintextIsForever(states: seq<System>, steps: seq<Step>, j: nat, k: nat)
    requires IsRun(states, steps) && j <= k < |states| && states[j].plaintext.Some?
    ensures states[k].plaintext == states[j].plaintext
  {
    if j < k {
      PlaintextIsForever(states, steps, j, k - 1);
      assert states[k - 1 + 1] == Next(states[k - 1], steps[k - 1]);
    }
  }

  // Until deletion starts, the stored key is valid; once the finalizer is gone, it is not.
  lemma CrashConsistency(states: seq<System>, steps: seq<Step>, k: nat)
    requires IsRun(states, steps) && k < |states|
    ensures !states[k].deleting ==> StoredHasRecord(states[k])
    ensures !states[k].finalizer ==> Revoked(states[k])
  {
    RunInv(states, steps, k);
  }

  /******* What deletion leaves behind *******/

  // An abandoned key has a record exactly if it leaked; a key still to be recorded has none.
  ghost predicate Traced(s: System) {
    && s.leaked <= s.abandoned
    && (forall key | key in s.abandoned :: HashOf(key) in s.records <==> key in s.leaked)
    && (forall i | i in s.attempts :: Unrecorded(s, s.attempts[i]))
  }

  ghost predicate Unrecorded(s: System, a: Attempt) {
    a.ReadMintedRecord? || a.CreateMintedRecord? ==> HashOf(a.key) !in s.records
  }

  lemma EndStaysTraced(s: System, id: nat)
    requires Inv(s) && Traced(s) && id in s.attempts
    ensures Traced(End(s, id))
  {
    assert AttemptInv(s, s.attempts[id]) && Unrecorded(s, s.attempts[id]);
    forall i | i in s.attempts ensures Unrecorded(End(s, id), s.attempts[i]) {
      assert Unrecorded(s, s.attempts[i]);
    }
  }

  lemma GotoStaysTraced(s: System, id: nat, a: Attempt)
    requires Traced(s) && Unrecorded(s, a)
    ensures Traced(Goto(s, id, a))
  {
    var s' := Goto(s, id, a);
    forall i | i in s'.attempts ensures Unrecorded(s', s'.attempts[i]) {
      assert i in s.attempts ==> Unrecorded(s, s.attempts[i]);
    }
  }

  // A new record belongs to no abandoned key and to no other attempt's.
  lemma RecordStaysTraced(s: System, id: nat, key: Key, next: Attempt)
    requires Inv(s) && Traced(s) && id in s.attempts && !next.ReadMintedRecord? && !next.CreateMintedRecord?
    requires key !in s.abandoned && (s.plaintext == Some(key) || key in Held(s.attempts[id]))
    ensures Traced(Goto(s.(records := s.records + {HashOf(key)}), id, next))
  {
    var s' := Goto(s.(records := s.records + {HashOf(key)}), id, next);
    forall i | i in s'.attempts ensures Unrecorded(s', s'.attempts[i]) {
      if i != id {
        assert AttemptInv(s, s.attempts[i]) && Unrecorded(s, s.attempts[i]);
        assert Held(s.attempts[i]) !! Held(s.attempts[id]);
      }
    }
  }

  // Fewer attempts, and abandoned keys that fit the same records.
  lemma FewerStayTraced(s: System, t: System)
    requires Traced(s) && t.records == s.records && t.leaked <= t.abandoned
    requires forall i | i in t.attempts :: i in s.attempts && t.attempts[i] == s.attempts[i]
    requires forall key | key in t.abandoned :: HashOf(key) in t.records <==> key in t.leaked
    ensures Traced(t)
  {
    forall i | i in t.attempts ensures Unrecorded(t, t.attempts[i]) {
      assert Unrecorded(s, s.attempts[i]);
    }
  }

  lemma LostCreateStaysTraced(s: System, id: nat, key: Key)
    requires Inv(s) && Traced(s) && id in s.attempts && s.attempts[id] == CreateMintedRecord(key)
    ensures Traced(Advance(s, id, Lost, ""))
  {
    assert AttemptInv(s, s.attempts[id]) && key in Held(s.attempts[id]);
    RecordStaysTraced(s, id, key, CreatePlaintext(key));
    var stored := Goto(s.(records := s.records + {HashOf(key)}), id, CreatePlaintext(key));
    FewerStayTraced(stored, Advance(s, id, Lost, ""));
  }

  lemma CreateMintedStaysTraced(s: System, id: nat, o: Outcome)
    requires Inv(s) && Traced(s) && id in s.attempts && s.attempts[id].CreateMintedRecord?
    ensures Traced(Advance(s, id, o, ""))
  {
    var a := s.attempts[id];
    assert AttemptInv(s, a) && a.key in Held(a);
    match o
    case Rejected => EndStaysTraced(s, id);
    case Lost => LostCreateStaysTraced(s, id, a.key);
    case Applied => RecordStaysTraced(s, id, a.key, CreatePlaintext(a.key));
  }

  lemma CreateStoredStaysTraced(s: System, id: nat, o: Outcome)
    requires Inv(s) && Traced(s) && id in s.attempts && s.attempts[id].CreateStoredRecord?
    ensures Traced(Advance(s, id, o, ""))
  {
    var a := s.attempts[id];
    assert AttemptInv(s, a);
    if o == Rejected {
      EndStaysTraced(s, id);
    } else {
      RecordStaysTraced(s, id, a.key, a);
      FewerStayTraced(Goto(s.(records := s.records + {HashOf(a.key)}), id, a), Advance(s, id, o, ""));
    }
  }

  lemma CallStaysTraced(s: System, id: nat, o: Outcome, candidate: Key)
    requires Inv(s) && Traced(s) && Allowed(s, Call(id, o, candidate))
    ensures Traced(Advance(s, id, o, candidate))
  {
    var a := s.attempts[id];
    assert AttemptInv(s, a) && Unrecorded(s, a);
    EndStaysTraced(s, id);
    match a
    case ReadPlaintext =>
      if s.plaintext.Some? {
        GotoStaysTraced(s, id, ReadStoredRecord(s.plaintext.value));
      } else {
        GotoStaysTraced(s, id, ReadMintedRecord(candidate));
        MintStaysTraced(Goto(s, id, ReadMintedRecord(candidate)), candidate);
      }
    case ReadStoredRecord(key) => GotoStaysTraced(s, id, CreateStoredRecord(key));
    case CreateStoredRecord(key) => CreateStoredStaysTraced(s, id, o);
    case ReadMintedRecord(key) => GotoStaysTraced(s, id, CreateMintedRecord(key));
    case CreateMintedRecord(key) => CreateMintedStaysTraced(s, id, o);
    case CreatePlaintext(key) => StoreStaysTraced(s, id);
  }

  lemma MintStaysTraced(s: System, candidate: Key)
    requires Traced(s)
    ensures Traced(s.(minted := s.minted + {candidate}))
  {
    var s' := s.(minted := s.minted + {candidate});
    forall i | i in s.attempts ensures Unrecorded(s', s.attempts[i]) {
      assert Unrecorded(s, s.attempts[i]);
    }
  }

  lemma StoreStaysTraced(s: System, id: nat)
    requires Traced(s) && id in s.attempts && s.attempts[id].CreatePlaintext?
    ensures Traced(s.(plaintext := Some(s.attempts[id].key), attempts := s.attempts - {id}))
  {
    var s' := s.(plaintext := Some(s.attempts[id].key), attempts := s.attempts - {id});
    forall i | i in s'.attempts ensures Unrecorded(s', s'.attempts[i]) {
      assert Unrecorded(s, s.attempts[i]);
    }
  }

  // A deletion pass removes the stored key's record, and that key is not abandoned.
  lemma PassStaysTraced(s: System, o: Outcome)
    requires Inv(s) && Traced(s)
    ensures Traced(AdvancePass(s, o))
  {
    var s' := AdvancePass(s, o);
    forall i | i in s'.attempts ensures Unrecorded(s', s'.attempts[i]) {
      assert Unrecorded(s, s.attempts[i]);
    }
  }

  lemma StepStaysTraced(s: System, step: Step)
    requires Inv(s) && Traced(s) && Allowed(s, step)
    ensures Traced(Next(s, step))
  {
    match step
    case Spawn(id) => GotoStaysTraced(s, id, ReadPlaintext);
    case Call(id, o, candidate) => CallStaysTraced(s, id, o, candidate);
    case Crash(id) => EndStaysTraced(s, id);
    case PassCall(o) => PassStaysTraced(s, o);
    case RequestDelete => FewerStayTraced(s, Next(s, step));
    case StartPass =>
    case CrashPass => FewerStayTraced(s, Next(s, step));
  }

  lemma {:induction false} RunTraced(states: seq<System>, steps: seq<Step>, k: nat)
    requires IsRun(states, steps) && k < |states|
    ensures Traced(states[k])
  {
    if k > 0 {
      RunTraced(states, steps, k - 1);
      RunInv(states, steps, k - 1);
      assert states[k - 1 + 1] == Next(states[k - 1], steps[k - 1]);
      StepStaysTraced(states[k - 1], steps[k - 1]);
    }
  }

  lemma RecordsWhenRevoked(s: System)
    requires Inv(s) && Traced(s) && s.attempts == map[] && Revoked(s)
    ensures forall h :: h in s.records <==> h.key in s.leaked
  {
    forall h ensures h in s.records <==> h.key in s.leaked {
      assert h == HashOf(h.key);
      if h in s.records {
        assert h.key in s.minted && s.plaintext != Some(h.key);
      }
    }
  }

  // A completed deletion leaves exactly the records of the leaked keys, so it leaves none exactly
  // when none leaked.
  lemma OnlyLeakedRecordsSurvive(states: seq<System>, steps: seq<Step>, k: nat)
    requires IsRun(states, steps) && k < |states| && !states[k].finalizer
    ensures forall h :: h in states[k].records <==> h.key in states[k].leaked
    ensures states[k].records == {} <==> states[k].leaked == {}
  {
    RunInv(states, steps, k);
    RunTraced(states, steps, k);
    var s := states[k];
    RecordsWhenRevoked(s);
    if s.leaked != {} {
      var key :| key in s.leaked;
      assert HashOf(key) in s.records;
    }
  }

  // Before that too: while no attempt is under way and the stored key is valid, the records are
  // those of the stored key and of the leaked ones.
  lemma RecordsAtRest(states: seq<System>, steps: seq<Step>, k: nat)
    requires IsRun(states, steps) && k < |states| && states[k].attempts == map[] && !states[k].deleting
    ensures forall h :: h in states[k].records <==> h.key in states[k].leaked || states[k].plaintext == Some(h.key)
  {
    RunInv(states, steps, k);
    RunTraced(states, steps, k);
    var s := states[k];
    forall h ensures h in s.records <==> h.key in s.leaked || s.plaintext == Some(h.key) {
      assert h == HashOf(h.key);
      if h in s.records {
        assert h.key in s.minted;
      }
    }
  }

  ghost predicate Reachable(s: System) {
    exists states: seq<System>, steps: seq<Step> :: IsRun(states, steps) && states[|steps|] == s
  }

  lemma ReachableStep(s: System, step: Step, s': System)
    requires Reachable(s) && Allowed(s, step) && s' == Next(s, step)
    ensures Reachable(s')
  {
    var states: seq<System>, steps: seq<Step> :| IsRun(states, steps) && states[|steps|] == s;
    var states', steps' := states + [s'], steps + [step];
    forall k | 0 <= k < |steps'|
      ensures Allowed(states'[k], steps'[k]) && states'[k + 1] == Next(states'[k], steps'[k])
    {
      if k < |steps| {
        assert Allowed(states[k], steps[k]) && states[k + 1] == Next(states[k], steps[k]);
      }
    }
    assert IsRun(states', steps');
  }

  // An attempt that stops between its two creates leaves its record behind.
  lemma StoppedAttemptIsReachable(key: Key)
    requires key != ""
    ensures Reachable(INITIAL.(records := {HashOf(key)}, minted := {key}, abandoned := {key}, leaked := {key}))
  {
    var none: seq<Step> := [];
    assert IsRun([INITIAL], none) && [INITIAL][|none|] == INITIAL;
    var s1 := INITIAL.(attempts := map[0 := ReadPlaintext]);
    ReachableStep(INITIAL, Spawn(0), s1);
    var s2 := INITIAL.(attempts := map[0 := ReadMintedRecord(key)], minted := {key});
    ReachableStep(s1, Call(0, Applied, key), s2);
    var s3 := s2.(attempts := map[0 := CreateMintedRecord(key)]);
    ReachableStep(s2, Call(0, Applied, key), s3);
    var s4 := s3.(attempts := map[0 := CreatePlaintext(key)], records := {HashOf(key)});
    ReachableStep(s3, Call(0, Applied, key), s4);
    var s5 := INITIAL.(records := {HashOf(key)}, minted := {key}, abandoned := {key}, leaked := {key});
    assert s4.attempts - {0} == map[];
    ReachableStep(s4, Crash(0), s5);
  }

  // And a record like that does survive deletion, unknown to every later pass.
  lemma AbandonedRecordCanSurvive(key: Key)
    requires key != ""
    ensures exists s :: Reachable(s) && !s.finalizer && s.records == {HashOf(key)}
  {
    StoppedAttemptIsReachable(key);
    var s0 := INITIAL.(records := {HashOf(key)}, minted := {key}, abandoned := {key}, leaked := {key});
    var s1 := s0.(deleting := true);
    ReachableStep(s0, RequestDelete, s1);
    ReachableStep(s1, StartPass, s1.(pass := FindPlaintext));
    ReachableStep(s1.(pass := FindPlaintext), PassCall(Applied), s1.(pass := RemoveFinalizer));
    ReachableStep(s1.(pass := RemoveFinalizer), PassCall(Applied), s1.(finalizer := false));
    assert s1.(finalizer := false).records == {HashOf(key)};
  }

  ghost predicate TwoAttempts(s: System, a: Attempt, b: Attempt) {
    s.attempts.Keys == {0, 1} && s.attempts[0] == a && s.attempts[1] == b
  }

  // So does one that loses the race for the plaintext: its record stays beside the winner's.
  lemma LostRaceLeavesRecord(won: Key, lost: Key)
    requires won != lost && won != "" && lost != ""
    ensures exists s :: Reachable(s) && s.attempts == map[] && s.plaintext == Some(won)
                        && s.records == {HashOf(won), HashOf(lost)} && lost in s.leaked
  {
    var none: seq<Step> := [];
    assert IsRun([INITIAL], none) && [INITIAL][|none|] == INITIAL;
    var s1 := Next(INITIAL, Spawn(0));
    ReachableStep(INITIAL, Spawn(0), s1);
    var s2 := Next(s1, Spawn(1));
    ReachableStep(s1, Spawn(1), s2);
    var s3 := Next(s2, Call(0, Applied, won));
    ReachableStep(s2, Call(0, Applied, won), s3);
    var s4 := Next(s3, Call(1, Applied, lost));
    ReachableStep(s3, Call(1, Applied, lost), s4);
    BothRecord(s4, won, lost);
  }

  lemma BothRecord(s0: System, won: Key, lost: Key)
    requires Reachable(s0) && won != lost && s0.plaintext.None? && s0.records == {}
    requires TwoAttempts(s0, ReadMintedRecord(won), ReadMintedRecord(lost))
    ensures exists s :: Reachable(s) && s.attempts == map[] && s.plaintext == Some(won)
                        && s.records == {HashOf(won), HashOf(lost)} && lost in s.leaked
  {
    var s1 := Next(s0, Call(0, Applied, won));
    ReachableStep(s0, Call(0, Applied, won), s1);
    var s2 := Next(s1, Call(0, Applied, won));
    ReachableStep(s1, Call(0, Applied, won), s2);
    assert TwoAttempts(s2, CreatePlaintext(won), ReadMintedRecord(lost));
    var s3 := Next(s2, Call(1, Applied, lost));
    ReachableStep(s2, Call(1, Applied, lost), s3);
    var s4 := Next(s3, Call(1, Applied, lost));
    ReachableStep(s3, Call(1, Applied, lost), s4);
    OneStores(s4, won, lost);
  }

  lemma OneStores(s0: System, won: Key, lost: Key)
    requires Reachable(s0) && s0.plaintext.None? && s0.records == {HashOf(won), HashOf(lost)}
    requires TwoAttempts(s0, CreatePlaintext(won), CreatePlaintext(lost))
    ensures exists s :: Reachable(s) && s.attempts == map[] && s.plaintext == Some(won)
                        && s.records == {HashOf(won), HashOf(lost)} && lost in s.leaked
  {
    var s1 := Next(s0, Call(0, Applied, won));
    ReachableStep(s0, Call(0, Applied, won), s1);
    var s2 := Next(s1, Call(1, Applied, lost));
    ReachableStep(s1, Call(1, Applied, lost), s2);
    assert s2.attempts.Keys == {};
  }

  /******* The methods, call by call *******/

  datatype Answers = Answers(get: Outcome, getRecord: Outcome, createRecord: Outcome, create: Outcome)

  // The call an attempt makes next, answered from `answers`.
  function Answer(a: Attempt, answers: Answers): Outcome {
    match a
    case ReadPlaintext => answers.get
    case ReadStoredRecord(_) => answers.getRecord
    case ReadMintedRecord(_) => answers.getRecord
    case CreateStoredRecord(_) => answers.createRecord
    case CreateMintedRecord(_) => answers.createRecord
    case CreatePlaintext(_) => answers.create
  }

  // Attempt 0 runs until it ends or is about to store its key; that takes at most three calls.
  function RunToStore(s: System, answers: Answers, candidate: Key, calls: nat): System
    decreases calls
  {
    if calls == 0 || 0 !in s.attempts || s.attempts[0].CreatePlaintext? then s
    else RunToStore(OneCall(s, answers, candidate), answers, candidate, calls - 1)
  }

  function OneCall(s: System, answers: Answers, candidate: Key): System {
    if 0 in s.attempts then Advance(s, 0, Answer(s.attempts[0], answers), candidate) else s
  }

  // Another attempt stores its key, and has its record, before this one gets to it.
  function Meanwhile(s: System, rival: Option<Key>): System {
    if rival.Some? && 0 in s.attempts && s.plaintext.None?
    then s.(plaintext := rival, records := s.records + {HashOf(rival.value)})
    else s
  }

  // Attempt 0 from its first call to its end.
  function AfterAttempt(s: System, answers: Answers, candidate: Key, rival: Option<Key>): System {
    OneCall(Meanwhile(RunToStore(s, answers, candidate, 3), rival), answers, candidate)
  }

  // These two stores with attempt 0 about to begin, and no history.
  function Alone(plaintext: Option<Key>, records: set<Hash>): System {
    System(plaintext, records, map[0 := ReadPlaintext], false, true, Idle, {}, {}, {})
  }

  lemma ThreeCalls(s: System, answers: Answers, candidate: Key)
    requires 0 in s.attempts && s.attempts[0].ReadPlaintext?
    ensures var s1 := OneCall(s, answers, candidate);
            var s2 := if 0 in s1.attempts then OneCall(s1, answers, candidate) else s1;
            RunToStore(s, answers, candidate, 3) ==
              if 0 in s2.attempts && !s2.attempts[0].CreatePlaintext? then OneCall(s2, answers, candidate) else s2
  {
    var s1 := OneCall(s, answers, candidate);
    assert RunToStore(s, answers, candidate, 3) == RunToStore(s1, answers, candidate, 2);
    if 0 in s1.attempts {
      var s2 := OneCall(s1, answers, candidate);
      assert RunToStore(s1, answers, candidate, 2) == RunToStore(s2, answers, candidate, 1);
    }
  }

  /******* The method's calls are a run *******/

  // Alike in all that attempt 0 reads and writes: the two stores, and where it stands.
  ghost predicate SameForAttempt(s: System, m: System) {
    && s.plaintext == m.plaintext && s.records == m.records
    && (0 in s.attempts <==> 0 in m.attempts)
    && (0 in s.attempts ==> s.attempts[0] == m.attempts[0])
  }

  predicate Live(s: System) {
    !s.deleting && s.finalizer
  }

  predicate Mintable(s: System, key: Key) {
    key != "" && key !in s.minted
  }

  lemma EndIgnoresHistory(s: System, m: System)
    requires SameForAttempt(s, m) && 0 in s.attempts
    ensures SameForAttempt(End(s, 0), End(m, 0))
  {
  }

  lemma GotoIgnoresHistory(s: System, m: System, a: Attempt)
    requires SameForAttempt(s, m) && 0 in s.attempts
    ensures SameForAttempt(Goto(s, 0, a), Goto(m, 0, a))
  {
  }

  lemma CreateIgnoresHistory(s: System, m: System, key: Key, o: Outcome, candidate: Key)
    requires SameForAttempt(s, m) && 0 in s.attempts
    requires s.attempts[0] == CreateStoredRecord(key) || s.attempts[0] == CreateMintedRecord(key)
    ensures SameForAttempt(Advance(s, 0, o, candidate), Advance(m, 0, o, candidate))
  {
    var s', m' := s.(records := s.records + {HashOf(key)}), m.(records := m.records + {HashOf(key)});
    EndIgnoresHistory(s, m);
    EndIgnoresHistory(s', m');
    EndIgnoresHistory(s'.(leaked := s'.leaked + {key}), m'.(leaked := m'.leaked + {key}));
    GotoIgnoresHistory(s', m', CreatePlaintext(key));
  }

  // History plays no part in what a call does.
  lemma CallIgnoresHistory(s: System, m: System, o: Outcome, candidate: Key)
    requires SameForAttempt(s, m) && 0 in s.attempts
    ensures SameForAttempt(Advance(s, 0, o, candidate), Advance(m, 0, o, candidate))
  {
    EndIgnoresHistory(s, m);
    match s.attempts[0]
    case ReadPlaintext =>
      if s.plaintext.Some? {
        GotoIgnoresHistory(s, m, ReadStoredRecord(s.plaintext.value));
      } else {
        GotoIgnoresHistory(s, m, ReadMintedRecord(candidate));
      }
    case ReadStoredRecord(key) => GotoIgnoresHistory(s, m, CreateStoredRecord(key));
    case ReadMintedRecord(key) =>
      GotoIgnoresHistory(s, m, CreatePlaintext(key));
      GotoIgnoresHistory(s, m, CreateMintedRecord(key));
    case CreateStoredRecord(key) => CreateIgnoresHistory(s, m, key, o, candidate);
    case CreateMintedRecord(key) => CreateIgnoresHistory(s, m, key, o, candidate);
    case CreatePlaintext(key) =>
  }

  lemma CallTouchesOnlyItsAttempt(s: System, o: Outcome, candidate: Key)
    requires 0 in s.attempts
    ensures var t := Advance(s, 0, o, candidate);
            && t.deleting == s.deleting && t.finalizer == s.finalizer
            && t.minted <= s.minted + {candidate}
            && t.attempts.Keys - {0} == s.attempts.Keys - {0}
            && (0 in t.attempts ==> !t.attempts[0].ReadPlaintext?)
  {
  }

  lemma FollowCall(s: System, m: System, answers: Answers, candidate: Key) returns (t: System)
    requires Reachable(s) && SameForAttempt(s, m) && Live(s)
    requires 0 in s.attempts && s.attempts[0].ReadPlaintext? ==> Mintable(s, candidate)
    ensures Reachable(t) && SameForAttempt(t, OneCall(m, answers, candidate)) && Live(t)
    ensures t.minted <= s.minted + {candidate} && t.attempts.Keys - {0} == s.attempts.Keys - {0}
    ensures 0 in t.attempts ==> !t.attempts[0].ReadPlaintext?
  {
    if 0 in s.attempts {
      var o := Answer(s.attempts[0], answers);
      t := Next(s, Call(0, o, candidate));
      ReachableStep(s, Call(0, o, candidate), t);
      CallIgnoresHistory(s, m, o, candidate);
      CallTouchesOnlyItsAttempt(s, o, candidate);
    } else {
      t := s;
    }
  }

  lemma {:induction false} FollowToStore(s: System, m: System, answers: Answers, candidate: Key, calls: nat)
      returns (t: System)
    requires Reachable(s) && SameForAttempt(s, m) && Live(s)
    requires 0 in s.attempts && s.attempts[0].ReadPlaintext? ==> Mintable(s, candidate)
    ensures Reachable(t) && SameForAttempt(t, RunToStore(m, answers, candidate, calls)) && Live(t)
    ensures t.minted <= s.minted + {candidate} && t.attempts.Keys - {0} == s.attempts.Keys - {0}
    decreases calls
  {
    if calls == 0 || 0 !in s.attempts || s.attempts[0].CreatePlaintext? {
      t := s;
    } else {
      var u := FollowCall(s, m, answers, candidate);
      t := FollowToStore(u, OneCall(m, answers, candidate), answers, candidate, calls - 1);
    }
  }

  lemma ReachableInv(s: System)
    requires Reachable(s)
    ensures Inv(s)
  {
    var states: seq<System>, steps: seq<Step> :| IsRun(states, steps) && states[|steps|] == s;
    RunInv(states, steps, |steps|);
  }

  // The rival's key arrives by five steps of an attempt of its own.
  lemma FollowRival(s: System, rival: Key) returns (t: System)
    requires Reachable(s) && Live(s) && s.plaintext.None? && 1 !in s.attempts && Mintable(s, rival)
    ensures Reachable(t) && Live(t) && t.attempts == s.attempts
    ensures t.plaintext == Some(rival) && t.records == s.records + {HashOf(rival)}
  {
    ReachableInv(s);
    assert HashOf(rival) !in s.records;
    var s1 := Next(s, Spawn(1));
    ReachableStep(s, Spawn(1), s1);
    var s2 := Next(s1, Call(1, Applied, rival));
    ReachableStep(s1, Call(1, Applied, rival), s2);
    assert s2.attempts[1] == ReadMintedRecord(rival);
    var s3 := Next(s2, Call(1, Applied, rival));
    ReachableStep(s2, Call(1, Applied, rival), s3);
    assert s3.attempts[1] == CreateMintedRecord(rival);
    t := RivalStores(s, s3, rival);
  }

  lemma RivalStores(s: System, s3: System, rival: Key) returns (t: System)
    requires Reachable(s3) && Live(s3) && s3.plaintext.None? && s3.records == s.records
    requires 1 !in s.attempts && s3.attempts == s.attempts[1 := CreateMintedRecord(rival)]
    ensures Reachable(t) && Live(t) && t.attempts == s.attempts
    ensures t.plaintext == Some(rival) && t.records == s.records + {HashOf(rival)}
  {
    var s4 := Next(s3, Call(1, Applied, rival));
    ReachableStep(s3, Call(1, Applied, rival), s4);
    assert s4.attempts[1] == CreatePlaintext(rival);
    t := Next(s4, Call(1, Applied, rival));
    ReachableStep(s4, Call(1, Applied, rival), t);
    assert t.attempts == s.attempts;
  }

  // From any reachable state of a live sandbox the method leaves both stores as some run does, so
  // what holds in every run holds after it: the stored key has its record.
  lemma AttemptIsARun(s: System, answers: Answers, candidate: Key, rival: Option<Key>) returns (t: System)
    requires Reachable(s) && Live(s) && 0 !in s.attempts && 1 !in s.attempts && Mintable(s, candidate)
    requires rival.Some? ==> Mintable(s, rival.value) && rival.value != candidate
    ensures var m := AfterAttempt(Alone(s.plaintext, s.records), answers, candidate, rival);
            && Reachable(t) && Live(t)
            && t.plaintext == m.plaintext && t.records == m.records
            && StoredHasRecord(t)
  {
    var alone := Alone(s.plaintext, s.records);
    var s1 := Next(s, Spawn(0));
    ReachableStep(s, Spawn(0), s1);
    t := FollowToStore(s1, alone, answers, candidate, 3);
    var m := RunToStore(alone, answers, candidate, 3);
    if rival.Some? && 0 in t.attempts && t.plaintext.None? {
      assert 1 !in t.attempts by {
        assert 1 !in t.attempts.Keys - {0};
      }
      t := FollowRival(t, rival.value);
    }
    LastCallIsNoRead(alone, answers, candidate);
    t := FollowCall(t, Meanwhile(m, rival), answers, candidate);
    ReachableInv(t);
  }

  lemma LastCallIsNoRead(s: System, answers: Answers, candidate: Key)
    requires 0 in s.attempts && s.attempts[0].ReadPlaintext?
    ensures var m := RunToStore(s, answers, candidate, 3);
            0 in m.attempts ==> !m.attempts[0].ReadPlaintext?
  {
    ThreeCalls(s, answers, candidate);
    var s1 := OneCall(s, answers, candidate);
    CallTouchesOnlyItsAttempt(s, Answer(s.attempts[0], answers), candidate);
    if 0 in s1.attempts {
      CallTouchesOnlyItsAttempt(s1, Answer(s1.attempts[0], answers), candidate);
      var s2 := OneCall(s1, answers, candidate);
      if 0 in s2.attempts {
        CallTouchesOnlyItsAttempt(s2, Answer(s2.attempts[0], answers), candidate);
      }
    }
  }

  datatype PassAnswers = PassAnswers(get: Outcome, getRecord: Outcome, deleteRecord: Outcome)

  // The three calls of a deletion pass that come before the finalizer's.
  function RunPass(s: System, answers: PassAnswers, calls: nat): System
    decreases calls
  {
    if calls == 0 then s
    else match s.pass
      case FindPlaintext => RunPass(AdvancePass(s, answers.get), answers, calls - 1)
      case FindRecord(_) => RunPass(AdvancePass(s, answers.getRecord), answers, calls - 1)
      case DeleteRecord(_) => RunPass(AdvancePass(s, answers.deleteRecord), answers, calls - 1)
      case _ => s
  }

  predicate AppliedPass(steps: seq<Step>, k: nat)
    requires k + 5 <= |steps|
  {
    steps[k] == StartPass && forall i | k < i < k + 5 :: steps[i] == PassCall(Applied)
  }

  // In any run, once nothing else is under way, one pass whose four calls at most are all applied
  // completes the deletion: the stored key's record is gone and the finalizer with it.
  lemma AppliedPassDeletes(states: seq<System>, steps: seq<Step>, k: nat)
    requires IsRun(states, steps) && k + 5 <= |steps| && AppliedPass(steps, k)
    ensures var s, t := states[k], states[k + 5];
            && s.deleting && s.finalizer && s.attempts == map[]
            && !t.finalizer && t.plaintext == s.plaintext
            && t.records == if s.plaintext.Some? then s.records - {HashOf(s.plaintext.value)} else s.records
  {
    RunInv(states, steps, k);
    assert Allowed(states[k], steps[k]) && states[k + 1] == Next(states[k], steps[k]);
    forall i | k < i < k + 5 ensures states[i + 1] == AdvancePass(states[i], Applied) {
      assert states[i + 1] == Next(states[i], steps[i]);
    }
    assert states[k + 1].pass == FindPlaintext;
    assert states[k + 3] == AdvancePass(states[k + 2], Applied);
    assert states[k + 4] == AdvancePass(states[k + 3], Applied);
    assert states[k + 5] == AdvancePass(states[k + 4], Applied);
    assert states[k].plaintext.Some? ==> states[k].plaintext.value != "";
  }

  // And from every reachable state of that kind there is such a pass.
  lemma DeletionCanFinish(s: System) returns (t: System)
    requires Reachable(s) && s.deleting && s.finalizer && s.attempts == map[] && s.pass.Idle?
    ensures Reachable(t) && !t.finalizer && t.plaintext == s.plaintext && t.leaked == s.leaked
    ensures forall h :: h in t.records <==> h in s.records && (s.plaintext.Some? ==> h != HashOf(s.plaintext.value))
  {
    ReachableInv(s);
    var s1 := s.(pass := FindPlaintext);
    ReachableStep(s, StartPass, s1);
    t := AdvancePass(s1, Applied);
    ReachableStep(s1, PassCall(Applied), t);
    if s.plaintext.Some? {
      var s3 := AdvancePass(t, Applied);
      ReachableStep(t, PassCall(Applied), s3);
      t := s3;
      if HashOf(s.plaintext.value) in s.records {
        t := AdvancePass(s3, Applied);
        ReachableStep(s3, PassCall(Applied), t);
      }
    }
    var last := AdvancePass(t, Applied);
    ReachableStep(t, PassCall(Applied), last);
    t := last;
  }

  class KeySecrets {
    var plaintext: Option<Key>
    var records: set<Hash>

    constructor ()
      ensures plaintext == None && records == {}
    {
      plaintext, records := None, {};
    }

    // Answers whether the record is known to be there.
    method EnsureHashedScopedKeyRecord(key: Key, getRecord: Outcome, createRecord: Outcome) returns (ok: bool)
      modifies this`records
      ensures ok ==> HashOf(key) in records
      ensures records == old(records) || records == old(records) + {HashOf(key)}
      ensures getRecord == Applied && HashOf(key) in old(records) ==> ok && records == old(records)
      ensures !(getRecord == Applied && HashOf(key) in old(records)) ==>
                && ok == createRecord.Applied?
                && records == if createRecord.Rejected? then old(records) else old(records) + {HashOf(key)}
    {
      if getRecord == Applied && HashOf(key) in records {
        return true;
      }
      if createRecord.Rejected? {
        return false;
      }
      // A record that is already there makes the create a success.
      records := records + {HashOf(key)};
      return createRecord.Applied?;
    }

    // Another attempt may store its own key just before this one would. A stored key gets its
    // record if that is missing; a new key's record comes before the key itself.
    method EnsureSandboxAPIKeySecret(answers: Answers, candidate: Key, rival: Option<Key>) returns (ok: bool)
      modifies this
      ensures ok ==> plaintext.Some? && HashOf(plaintext.value) in records
      ensures !answers.get.Applied? || old(plaintext) == Some("") ==>
                !ok && plaintext == old(plaintext) && records == old(records)
      ensures answers.get.Applied? && old(plaintext) != Some("") ==>
                var key := if old(plaintext).Some? then old(plaintext).value else candidate;
                var present := answers.getRecord.Applied? && HashOf(key) in old(records);
                var recorded := present || answers.createRecord.Applied?;
                var stores := old(plaintext).None? && recorded;
                && (ok <==> recorded && (old(plaintext).None? ==> answers.create.Applied?))
                && plaintext == (if !stores then old(plaintext)
                                 else if rival.Some? then rival
                                 else if answers.create.Rejected? then None
                                 else Some(candidate))
                && records == old(records)
                              + (if present || answers.createRecord.Rejected? then {} else {HashOf(key)})
                              + (if stores && rival.Some? then {HashOf(rival.value)} else {})
      ensures var s' := AfterAttempt(Alone(old(plaintext), old(records)), answers, candidate, rival);
              0 !in s'.attempts && plaintext == s'.plaintext && records == s'.records
    {
      ThreeCalls(Alone(plaintext, records), answers, candidate);
      if answers.get != Applied {
        return false;
      }
      if plaintext.Some? {
        var key := plaintext.value;
        if key == "" {
          return false;
        }
        ok := EnsureHashedScopedKeyRecord(key, answers.getRecord, answers.createRecord);
        return;
      }
      ok := EnsureHashedScopedKeyRecord(candidate, answers.getRecord, answers.createRecord);
      if !ok {
        return;
      }
      if rival.Some? {
        plaintext, records := rival, records + {HashOf(rival.value)};
      }
      if answers.create.Rejected? {
        return false;
      }
      // A plaintext that is already there makes the create a success.
      if plaintext.None? {
        plaintext := Some(candidate);
      }
      return answers.create.Applied?;
    }

    // Success means the stored key is no longer valid; a record that is gone already is no failure.
    method RevokeSandboxAPIKey(answers: PassAnswers) returns (ok: bool)
      modifies this`records
      ensures ok && plaintext.Some? && plaintext.value != "" ==> HashOf(plaintext.value) !in records
      ensures ok <==>
                && answers.get.Applied?
                && (plaintext.Some? && plaintext.value != "" ==>
                      && answers.getRecord.Applied?
                      && (HashOf(plaintext.value) in old(records) ==> answers.deleteRecord.Applied?))
      ensures records ==
                if && answers.get.Applied? && plaintext.Some? && plaintext.value != ""
                   && answers.getRecord.Applied? && !answers.deleteRecord.Rejected?
                then old(records) - {HashOf(plaintext.value)}
                else old(records)
      ensures var s := System(plaintext, old(records), map[], true, true, FindPlaintext, {}, {}, {});
              var s' := RunPass(s, answers, 3);
              && records == s'.records
              && s'.pass == if ok then RemoveFinalizer else Idle
    {
      if answers.get != Applied {
        return false;
      }
      if plaintext.None? || plaintext.value == "" {
        return true;
      }
      var hash := HashOf(plaintext.value);
      ghost var s := System(plaintext, records, map[], true, true, FindPlaintext, {}, {}, {});
      ghost var s1 := AdvancePass(s, Applied);
      assert RunPass(s, answers, 3) == RunPass(s1, answers, 2);
      assert RunPass(s1, answers, 2) == RunPass(AdvancePass(s1, answers.getRecord), answers, 1);
      if answers.getRecord != Applied {
        return false;
      }
      if hash !in records {
        return true;
      }
      if answers.deleteRecord.Rejected? {
        return false;
      }
      records := records - {hash};
      return answers.deleteRecord.Applied?;
    }
  }
}
