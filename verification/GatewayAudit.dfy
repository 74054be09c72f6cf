/**
 * The audit trail of the gateway's control plane: the extensions, raises and
 * rotations recorded in a binding explain the limits in force without a gap.
 */
module GatewayAudit {
  import opened Basics
  import opened Gateway
  import opened GatewayRuns

  /** Each window starts at the expiry the one before it set; the last one set the expiry in force. */
  predicate WindowsTrail(b: Binding) {
    && (forall i :: 0 < i < |b.windows| ==> b.windows[i].previousExpiry == b.windows[i - 1].newExpiry)
    && (b.windows != [] ==> b.windows[|b.windows| - 1].newExpiry == b.expiresAt)
  }

  /** Each raise starts at the limits the one before it set, and lowers neither; the last one set the limits in force. */
  predicate RaisesTrail(b: Binding) {
    && (forall i :: 0 <= i < |b.raises| ==>
          b.raises[i].oldCap <= b.raises[i].newCap && b.raises[i].oldCalls <= b.raises[i].newCalls)
    && (forall i :: 0 < i < |b.raises| ==>
          b.raises[i].oldCap == b.raises[i - 1].newCap && b.raises[i].oldCalls == b.raises[i - 1].newCalls)
    && (b.raises != [] ==> b.raises[|b.raises| - 1].newCap == b.cap && b.raises[|b.raises| - 1].newCalls == b.maxCalls)
  }

  /** Each rotation replaces the identities the one before it set; the last one set those in force. */
  predicate RotationsTrail(b: Binding) {
    && (forall i :: 0 < i < |b.rotations| ==> b.rotations[i].previous == b.rotations[i - 1].next)
    && (b.rotations != [] ==> b.rotations[|b.rotations| - 1].next == Sha256(b.identities))
  }

  predicate Trails(b: Binding) {
    WindowsTrail(b) && RaisesTrail(b) && RotationsTrail(b)
  }

  predicate Audited(f: Files) {
    f.binding.Some? ==> Trails(f.binding.value.body)
  }

  lemma WindowAdded(b: Binding, e: WindowEvent)
    requires Trails(b) && e.previousExpiry == b.expiresAt
    ensures Trails(b.(expiresAt := e.newExpiry, windows := b.windows + [e]))
  {
  }

  lemma RaiseAdded(b: Binding, e: BudgetEvent)
    requires Trails(b) && e.oldCap == b.cap <= e.newCap && e.oldCalls == b.maxCalls <= e.newCalls
    ensures Trails(b.(cap := e.newCap, maxCalls := e.newCalls, raises := b.raises + [e]))
  {
  }

  lemma RotationAdded(b: Binding, e: RotationEvent, next: Identities)
    requires Trails(b) && e.previous == Sha256(b.identities) && e.next == Sha256(next)
    ensures Trails(b.(identities := next, rotations := b.rotations + [e]))
  {
  }

  lemma ClosedTrails(b: Binding, state: BindingState)
    requires Trails(b)
    ensures Trails(b.(state := state))
  {
  }

  lemma FreshTrails(p: RunRequest, now: int)
    ensures Trails(NewBinding(p, now))
  {
  }

  lemma ControlAudits(w: World, s: Step)
    requires Audited(w.files) && (s.CloseStep? || s.RenewStep? || s.RotateStep? || s.ExtendStep? || s.RaiseStep?)
    ensures Audited(Apply(w, s).files)
  {
    hide Trails, Authorize, RecordResult, RecordFailure, PrepareRun, Rearm;
    if w.files.binding.Some? {
      var b := w.files.binding.value.body;
      match s
      case CloseStep(_, terminal, now) => ClosedTrails(b, Closed(terminal, now));
      case RenewStep(_, now) => WindowAdded(b, ExpiredWindow(b.expiresAt, now, now + WINDOW));
      case RotateStep(_, next, now) => RotationAdded(b, RotationEvent(Sha256(b.identities), Sha256(next), now), next);
      case ExtendStep(_, now) =>
        if w.files.ledger.Some? {
          var l := w.files.ledger.value.body;
          WindowAdded(b, RecoveryWindow(b.expiresAt, now, now + WINDOW, l.spent.calls, l.spent.total, |b.windows| + 1));
        }
      case RaiseStep(_, cap, maxCalls, now) =>
        if cap >= b.cap && maxCalls >= b.maxCalls {
          RaiseAdded(b, BudgetEvent(b.cap, cap, b.maxCalls, maxCalls, now));
        }
    }
  }

  lemma RearmAudits(f: Files, runId: string, now: int, stages: nat)
    requires Audited(f)
    ensures Audited(Rearm(f, runId, now, stages).0)
  {
    hide Trails, RearmFault;
    if f.binding.Some? {
      WindowAdded(f.binding.value.body, TransportWindow(f.binding.value.body.expiresAt, now, now + WINDOW));
    }
  }

  lemma PrepareAudits(f: Files, p: RunRequest, now: int, stages: nat)
    requires Audited(f)
    ensures Audited(PrepareRun(f, p, now, stages).0)
  {
    hide Trails, RunRequestFault, ExistingAnswer, LimitsPositive, NewBinding;
    FreshTrails(p, now);
  }

  lemma CallKeepsBinding(w: World, s: Step)
    requires Possible(w, s) && (s.AuthorizeStep? || s.ResultStep? || s.FailureStep?)
    ensures Apply(w, s).files.binding == w.files.binding
  {
    hide ParseUsage, ActiveBinding, RequestFault, Exposure, Released, Appended;
  }

  /**
   * Over every history the trail of extensions, raises and rotations in the
   * binding leads without a gap to the expiry, limits and identities in force.
   */
  lemma {:induction false} AuditTrailIsComplete(ws: seq<World>, steps: seq<Step>, i: nat)
    requires History(ws, steps) && ws[0] == EMPTY && i < |ws|
    ensures Audited(ws[i].files)
  {
    hide Trails, Authorize, RecordResult, RecordFailure, PrepareRun, Rearm;
    hide CloseRun, RenewExpired, RotateIdentities, ExtendWindow, RaiseBudget;
    if i > 0 {
      AuditTrailIsComplete(ws, steps, i - 1);
      match steps[i - 1]
      case PrepareStep(p, now, stages) => PrepareAudits(ws[i - 1].files, p, now, stages);
      case RearmStep(runId, now, stages) => RearmAudits(ws[i - 1].files, runId, now, stages);
      case AuthorizeStep(_, _, _) => CallKeepsBinding(ws[i - 1], steps[i - 1]);
      case ResultStep(_, _, _) => CallKeepsBinding(ws[i - 1], steps[i - 1]);
      case FailureStep(_, _, _) => CallKeepsBinding(ws[i - 1], steps[i - 1]);
      case _ => ControlAudits(ws[i - 1], steps[i - 1]);
    }
  }
}
