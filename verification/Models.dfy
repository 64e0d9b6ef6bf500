/** `models.py`: roles, item states, worker handoffs and the evidence gate; with the scheduler's use of them. */
module Models {
  import opened Processes

  /** The column is text: OtherState is any name outside the enumeration. */
  datatype ItemState =
    | Backlog | Investigating | ReadyForFix | Fixing | ReadyForTest | Testing | VerifiedGreen | Blocked
    | OtherState(name: string)

  datatype WorkerRole = Investigator | Fixer | Tester

  function QueuedState(role: WorkerRole): ItemState {
    match role
    case Investigator => Backlog
    case Fixer => ReadyForFix
    case Tester => ReadyForTest
  }

  function ActiveState(role: WorkerRole): ItemState {
    match role
    case Investigator => Investigating
    case Fixer => Fixing
    case Tester => Testing
  }

  predicate Terminal(state: ItemState) {
    state in {VerifiedGreen, Blocked}
  }

  /** Where a stage may leave its item. */
  function StageNextStates(role: WorkerRole): set<ItemState> {
    match role
    case Investigator => {ReadyForFix, Blocked}
    case Fixer => {ReadyForTest, Blocked}
    case Tester => {VerifiedGreen, ReadyForFix, Blocked}
  }

  /** The role that works on an item left in a state, if any. */
  function SuccessorRole(state: ItemState): Option<WorkerRole> {
    match state
    case ReadyForFix => Some(Fixer)
    case ReadyForTest => Some(Tester)
    case _ => None
  }

  // ---- Evidence ----

  datatype EvidenceKind =
    | BrowserEvidence | Screenshot | DatabaseEvidence | TestEvidence | GlEvidence
    | ApiEvidence | LogEvidence | ExportEvidence | DocumentEvidence | OtherEvidence

  datatype GateKind = FocusedTests | Browser | Database | Gl | Api | Export

  datatype GateResult = Pass | Fail | NotApplicable

  datatype EvidenceRef = EvidenceRef(kind: EvidenceKind, location: string, simulated: bool)

  function AllowedKinds(gate: GateKind): set<EvidenceKind> {
    match gate
    case FocusedTests => {TestEvidence, LogEvidence}
    case Browser => {BrowserEvidence, Screenshot}
    case Database => {DatabaseEvidence}
    case Gl => {GlEvidence, DatabaseEvidence}
    case Api => {ApiEvidence, LogEvidence}
    case Export => {ExportEvidence, DocumentEvidence}
  }

  datatype GateProof = GateProof(gate: GateKind, result: GateResult, evidence: seq<EvidenceRef>) {
    predicate Valid() {
      && (result in {Pass, Fail} ==> evidence != [])
      && forall e <- evidence :: e.kind in AllowedKinds(gate)
    }
  }

  // ---- Handoffs ----

  datatype Blocker = Blocker(summary: string, evidence: seq<EvidenceRef>) {
    predicate Valid() {
      evidence != []
    }
  }

  datatype TestOutcome = Passed | Red | TestBlocked

  datatype Handoff =
    | Investigation(itemId: nat, blocked: bool, evidence: seq<EvidenceRef>, blocker: Option<Blocker>)
    | Fix(itemId: nat, blocked: bool, changedFiles: seq<string>, testerInstructions: seq<string>,
          evidence: seq<EvidenceRef>, blocker: Option<Blocker>)
    | Test(itemId: nat, outcome: TestOutcome, proofs: seq<GateProof>, failureSummary: Option<string>,
           blocker: Option<Blocker>)
  {
    function Role(): WorkerRole {
      match this
      case Investigation(_, _, _, _) => Investigator
      case Fix(_, _, _, _, _, _) => Fixer
      case Test(_, _, _, _, _) => Tester
    }

    predicate Valid() {
      && (blocker.Some? ==> blocker.value.Valid())
      && match this
         case Investigation(_, blocked, evidence, blocker) =>
           evidence != [] && blocked == blocker.Some?
         case Fix(_, blocked, changedFiles, testerInstructions, _, blocker) =>
           blocked == blocker.Some? && (blocked || (changedFiles != [] && testerInstructions != []))
         case Test(_, outcome, proofs, failureSummary, blocker) =>
           && (forall p <- proofs :: p.Valid())
           && (forall i, j :: 0 <= i < j < |proofs| ==> proofs[i].gate != proofs[j].gate)
           && match outcome
              case Passed => proofs != [] && !HasFailure(proofs) && failureSummary.None? && blocker.None?
              case Red => HasFailure(proofs) && failureSummary.Some? && blocker.None?
              case TestBlocked => blocker.Some? && !HasFailure(proofs) && failureSummary.None?
    }
  }

  predicate HasFailure(proofs: seq<GateProof>) {
    exists p <- proofs :: p.result == Fail
  }

  // ---- The evidence gate ----

  datatype GateDecision = Green | ReturnToFix | BlockItem | Rejected

  datatype Evaluation = Evaluation(
    decision: GateDecision,
    nextState: Option<ItemState>,
    missing: seq<GateKind>,
    failed: seq<GateKind>,
    inapplicable: seq<GateKind>)

  predicate Distinct(gates: seq<GateKind>) {
    forall i, j :: 0 <= i < j < |gates| ==> gates[i] != gates[j]
  }

  /** `{proof.gate: proof for proof in proofs}.get(gate)`: the last proof wins. */
  function ProofFor(proofs: seq<GateProof>, gate: GateKind): Option<GateProof> {
    if proofs == [] then None
    else if proofs[|proofs| - 1].gate == gate then Some(proofs[|proofs| - 1])
    else ProofFor(proofs[..|proofs| - 1], gate)
  }

  function Keep(gates: seq<GateKind>, p: GateKind -> bool): (r: seq<GateKind>)
    ensures forall g :: g in r <==> g in gates && p(g)
  {
    if gates == [] then []
    else if p(gates[0]) then [gates[0]] + Keep(gates[1..], p)
    else Keep(gates[1..], p)
  }

  function FailedGates(proofs: seq<GateProof>): (r: seq<GateKind>)
    ensures forall g :: g in r <==> exists p <- proofs :: p.gate == g && p.result == Fail
  {
    if proofs == [] then []
    else (if proofs[0].result == Fail then [proofs[0].gate] else []) + FailedGates(proofs[1..])
  }

  predicate Resulted(proofs: seq<GateProof>, gate: GateKind, result: GateResult) {
    var proof := ProofFor(proofs, gate);
    proof.Some? && proof.value.result == result
  }

  /** Only this function can decide that an item is green. */
  function EvaluateTestHandoff(required: seq<GateKind>, h: Handoff): Evaluation
    requires h.Test?
  {
    if required == [] || !Distinct(required) then Evaluation(Rejected, None, [], [], [])
    else if h.outcome == TestBlocked then Evaluation(BlockItem, Some(Blocked), [], [], [])
    else if h.outcome == Red then
      var failed := FailedGates(h.proofs);
      var failedRequired := Keep(required, g => g in failed);
      if failedRequired == [] then Evaluation(Rejected, None, [], failed, [])
      else Evaluation(ReturnToFix, Some(ReadyForFix), [], failedRequired, [])
    else
      var missing := Keep(required, g => ProofFor(h.proofs, g).None?);
      var inapplicable := Keep(required, g => Resulted(h.proofs, g, NotApplicable));
      var failedRequired := Keep(required, g => Resulted(h.proofs, g, Fail));
      if missing != [] || inapplicable != [] || failedRequired != [] then
        Evaluation(Rejected, None, missing, failedRequired, inapplicable)
      else
        Evaluation(Green, Some(VerifiedGreen), [], [], [])
  }

  /** A passing proof, with evidence of the kinds its gate accepts, for every required gate. */
  ghost predicate ProvenGreen(required: seq<GateKind>, proofs: seq<GateProof>) {
    forall g <- required :: Proven(proofs, g)
  }

  predicate Proven(proofs: seq<GateProof>, g: GateKind) {
    exists p <- proofs ::
      && p.gate == g && p.result == Pass
      && p.evidence != [] && forall e <- p.evidence :: e.kind in AllowedKinds(g)
  }

  lemma {:induction false} ProofForFinds(proofs: seq<GateProof>, gate: GateKind)
    requires forall i, j :: 0 <= i < j < |proofs| ==> proofs[i].gate != proofs[j].gate
    ensures ProofFor(proofs, gate).None? <==> forall p <- proofs :: p.gate != gate
    ensures forall p <- proofs :: p.gate == gate ==> ProofFor(proofs, gate) == Some(p)
    ensures ProofFor(proofs, gate).Some? ==>
              ProofFor(proofs, gate).value in proofs && ProofFor(proofs, gate).value.gate == gate
  {
    if proofs != [] {
      var n := |proofs| - 1;
      ProofForFinds(proofs[..n], gate);
      assert forall p :: p in proofs <==> p in proofs[..n] || p == proofs[n];
      assert forall p <- proofs[..n] :: p.gate != proofs[n].gate;
    }
  }

  /** Exactly when the gate opens, sends back, or blocks. */
  lemma GateDecisions(required: seq<GateKind>, h: Handoff)
    requires h.Test? && h.Valid()
    ensures var e := EvaluateTestHandoff(required, h); var sound := required != [] && Distinct(required);
            && (e.decision == Green <==> sound && h.outcome == Passed && ProvenGreen(required, h.proofs))
            && (e.decision == ReturnToFix <==>
                sound && h.outcome == Red && exists p <- h.proofs :: p.result == Fail && p.gate in required)
            && (e.decision == BlockItem <==> sound && h.outcome == TestBlocked)
            && e.nextState == match e.decision
                              case Green => Some(VerifiedGreen)
                              case ReturnToFix => Some(ReadyForFix)
                              case BlockItem => Some(Blocked)
                              case Rejected => None
  {
    forall g {
      ProofForFinds(h.proofs, g);
    }
    var e := EvaluateTestHandoff(required, h);
    if required != [] && Distinct(required) && h.outcome == Passed {
      var missing := Keep(required, g => ProofFor(h.proofs, g).None?);
      var inapplicable := Keep(required, g => Resulted(h.proofs, g, NotApplicable));
      var failedRequired := Keep(required, g => Resulted(h.proofs, g, Fail));
      if e.decision == Green {
        forall g <- required
          ensures Proven(h.proofs, g)
        {
          assert g !in missing && g !in inapplicable && g !in failedRequired;
          var p := ProofFor(h.proofs, g).value;
          assert p.gate == g && p.result == Pass && p.Valid();
        }
      } else {
        var g := (missing + inapplicable + failedRequired)[0];
        assert g in missing || g in inapplicable || g in failedRequired;
        assert g in required && !Resulted(h.proofs, g, Pass);
      }
    } else if required != [] && Distinct(required) && h.outcome == Red {
      var failed := FailedGates(h.proofs);
      var failedRequired := Keep(required, g => g in failed);
      if failedRequired != [] {
        assert failedRequired[0] in failedRequired;
      }
    }
  }

  // ---- Binding and finalising a worker's output (`scheduler.py`) ----

  /** `_walk_evidence` on a handoff. */
  function AllEvidence(h: Handoff): seq<EvidenceRef> {
    var fromBlocker := if h.blocker.Some? then h.blocker.value.evidence else [];
    match h
    case Investigation(_, _, evidence, _) => evidence + fromBlocker
    case Fix(_, _, _, _, evidence, _) => evidence + fromBlocker
    case Test(_, _, proofs, _, _) => ProofEvidence(proofs) + fromBlocker
  }

  function ProofEvidence(proofs: seq<GateProof>): (r: seq<EvidenceRef>)
    ensures forall p <- proofs, e <- p.evidence :: e in r
  {
    if proofs == [] then [] else proofs[0].evidence + ProofEvidence(proofs[1..])
  }

  /** Simulated evidence needs the campaign's permission, any other must be an existing file. */
  predicate Attached(h: Handoff, allowSimulated: bool, files: set<string>) {
    forall e <- AllEvidence(h) :: if e.simulated then allowSimulated else e.location in files
  }

  /** The claim, not the worker, says which item a handoff is about. */
  function BindOutput(role: WorkerRole, itemId: nat, output: Handoff): Option<Handoff> {
    var bound := output.(itemId := itemId);
    if bound.Role() == role && bound.Valid() then Some(bound) else None
  }

  datatype StageDecision = StageDecision(nextState: ItemState, successor: Option<WorkerRole>)

  /** The state and successor chosen by `_finalize_handoff`; None when it rejects the output. */
  function FinalizeHandoff(required: seq<GateKind>, h: Handoff): Option<StageDecision> {
    match h
    case Investigation(_, blocked, _, _) =>
      Some(if blocked then StageDecision(Blocked, None) else StageDecision(ReadyForFix, Some(Fixer)))
    case Fix(_, blocked, _, _, _, _) =>
      Some(if blocked then StageDecision(Blocked, None) else StageDecision(ReadyForTest, Some(Tester)))
    case Test(_, _, _, _, _) =>
      var e := EvaluateTestHandoff(required, h);
      match e.nextState
      case None => None
      case Some(VerifiedGreen) => Some(StageDecision(VerifiedGreen, None))
      case Some(ReadyForFix) => Some(StageDecision(ReadyForFix, Some(Fixer)))
      case Some(Blocked) => Some(StageDecision(Blocked, None))
      case _ => None
  }
}
