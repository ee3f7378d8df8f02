/** The payment state machine: which step an actor may take, how the step is
    labelled in the audit log, and what a history of steps can contain. */
module TwoKey {
  import opened Ids

  datatype Status = Pending | ProofSubmitted | CreditorConfirmed | Disputed | Settled

  datatype Action = SubmitProof | Confirm | Dispute | Finalize | Reject

  datatype Actor = Actor(isDebtor: bool, isCreditor: bool, isGroupAdmin: bool, isGlobalAdmin: bool)

  datatype Verdict = Next(status: Status) | Forbidden | Conflict

  /** `validatePaymentTransition`, check by check in the order of the source. */
  function Validate(action: Action, actor: Actor, status: Status): Verdict {
    if status == Settled then Conflict
    else match action
      case SubmitProof =>
        if !actor.isDebtor then Forbidden
        else if status != Pending && status != Disputed then Conflict
        else Next(ProofSubmitted)
      case Confirm =>
        if !actor.isCreditor then Forbidden
        else if status != ProofSubmitted then Conflict
        else Next(CreditorConfirmed)
      case Dispute =>
        if !actor.isCreditor then Forbidden
        else if status != ProofSubmitted then Conflict
        else Next(Disputed)
      case Finalize =>
        if actor.isDebtor then Forbidden
        else if !actor.isGroupAdmin && !actor.isGlobalAdmin then Forbidden
        else if actor.isGlobalAdmin then Next(Settled)
        else if status != CreditorConfirmed then Conflict
        else Next(Settled)
      case Reject =>
        if !actor.isGroupAdmin && !actor.isGlobalAdmin then Forbidden
        else if actor.isGlobalAdmin then Next(Disputed)
        else if status != ProofSubmitted && status != CreditorConfirmed then Conflict
        else Next(Disputed)
  }

  /** Which steps are allowed, by where they lead: the debtor alone proves, the
      creditor alone confirms; only an admin who is not the debtor settles, and
      only the global admin without the confirmation; the creditor or an admin
      turns back what was submitted, the global admin anything; nothing leaves
      settled and nothing returns to pending. */
  lemma AllowedSteps(action: Action, actor: Actor, status: Status)
    ensures Validate(action, actor, status) == Next(ProofSubmitted) <==>
            action == SubmitProof && actor.isDebtor && status in {Pending, Disputed}
    ensures Validate(action, actor, status) == Next(CreditorConfirmed) <==>
            action == Confirm && actor.isCreditor && status == ProofSubmitted
    ensures Validate(action, actor, status) == Next(Settled) <==>
            && action == Finalize && !actor.isDebtor && status != Settled
            && (actor.isGlobalAdmin || (actor.isGroupAdmin && status == CreditorConfirmed))
    ensures Validate(action, actor, status) == Next(Disputed) <==>
            || (action == Dispute && actor.isCreditor && status == ProofSubmitted)
            || (action == Reject && status != Settled &&
                (actor.isGlobalAdmin || (actor.isGroupAdmin && status in {ProofSubmitted, CreditorConfirmed})))
    ensures Validate(action, actor, status) != Next(Pending)
  {
    match action
    case SubmitProof =>
    case Confirm =>
    case Dispute =>
    case Finalize =>
    case Reject =>
  }

  /** Why a step is refused: a settled payment conflicts with every step; otherwise
      who may not take the step is forbidden it, and who may take it, but not from
      this status, conflicts. */
  lemma RefusedSteps(action: Action, actor: Actor, status: Status)
    ensures Validate(action, actor, status) == Forbidden <==>
            && status != Settled
            && match action
               case SubmitProof => !actor.isDebtor
               case Confirm => !actor.isCreditor
               case Dispute => !actor.isCreditor
               case Finalize => actor.isDebtor || (!actor.isGroupAdmin && !actor.isGlobalAdmin)
               case Reject => !actor.isGroupAdmin && !actor.isGlobalAdmin
    ensures Validate(action, actor, status) == Conflict <==>
            || status == Settled
            || match action
               case SubmitProof => actor.isDebtor && status in {ProofSubmitted, CreditorConfirmed}
               case Confirm => actor.isCreditor && status != ProofSubmitted
               case Dispute => actor.isCreditor && status != ProofSubmitted
               case Finalize =>
                 !actor.isDebtor && actor.isGroupAdmin && !actor.isGlobalAdmin && status != CreditorConfirmed
               case Reject =>
                 actor.isGroupAdmin && !actor.isGlobalAdmin && status in {Pending, Disputed}
  {
  }

  datatype Label =
    | LabelProofSubmitted
    | LabelConfirmed
    | LabelDisputed
    | LabelSettled
    | LabelSettledOverride
    | LabelRejected
    | LabelRejectedOverride

  /** `auditActionFor`. */
  function LabelFor(action: Action, actor: Actor, from: Status): Label {
    match action
    case SubmitProof => LabelProofSubmitted
    case Confirm => LabelConfirmed
    case Dispute => LabelDisputed
    case Finalize =>
      if actor.isGlobalAdmin && from != CreditorConfirmed then LabelSettledOverride else LabelSettled
    case Reject =>
      if actor.isGlobalAdmin && from != ProofSubmitted && from != CreditorConfirmed
      then LabelRejectedOverride else LabelRejected
  }

  predicate IsOverride(tag: Label) {
    tag == LabelSettledOverride || tag == LabelRejectedOverride
  }

  /** A step is labelled an override exactly when a group admin in the same place
      could not have taken it. */
  lemma OverrideExceedsGroupAdmin(action: Action, actor: Actor, from: Status)
    requires Validate(action, actor, from).Next? && (action == Finalize || action == Reject)
    ensures IsOverride(LabelFor(action, actor, from)) <==>
            !Validate(action, actor.(isGroupAdmin := true, isGlobalAdmin := false), from).Next?
  {
  }

  /** One committed step: the audit row, with the action and the roles behind it. */
  datatype Entry = Entry(pid: nat, user: UserId, action: Action, actor: Actor, tag: Label,
                         before: Status, after: Status)

  /** The step was allowed, its roles were those of its user, its label is right. */
  predicate Lawful(e: Entry, from: UserId, to: UserId) {
    && Validate(e.action, e.actor, e.before) == Next(e.after)
    && e.tag == LabelFor(e.action, e.actor, e.before)
    && (e.actor.isDebtor <==> e.user == from)
    && (e.actor.isCreditor <==> e.user == to)
  }

  predicate Linked(h: seq<Entry>, i: nat)
    requires i < |h|
  {
    h[i].before == if i == 0 then Pending else h[i-1].after
  }

  function StatusAfter(h: seq<Entry>): Status {
    if h == [] then Pending else h[|h|-1].after
  }

  /** The steps of one payment link without gaps from `pending`, each one lawful. */
  predicate Chain(h: seq<Entry>, from: UserId, to: UserId) {
    && (forall i :: 0 <= i < |h| ==> Lawful(h[i], from, to))
    && (forall i :: 0 <= i < |h| ==> Linked(h, i))
  }

  lemma ChainSnoc(h: seq<Entry>, e: Entry, from: UserId, to: UserId)
    requires Chain(h, from, to) && Lawful(e, from, to) && e.before == StatusAfter(h)
    ensures Chain(h + [e], from, to) && StatusAfter(h + [e]) == e.after
  {
    var g := h + [e];
    forall i | 0 <= i < |g|
      ensures Lawful(g[i], from, to) && Linked(g, i)
    {
      assert i < |h| ==> Linked(h, i);
    }
  }

  /** The label of a lawful step tells what it was. */
  lemma LabelTells(e: Entry, from: UserId, to: UserId)
    requires Lawful(e, from, to)
    ensures e.tag == LabelProofSubmitted <==> e.after == ProofSubmitted
    ensures e.tag == LabelConfirmed <==> e.after == CreditorConfirmed
    ensures e.tag == LabelDisputed <==> e.action == Dispute
    ensures e.tag == LabelRejected || e.tag == LabelRejectedOverride <==> e.action == Reject
    ensures e.tag == LabelRejectedOverride <==>
            e.action == Reject && e.actor.isGlobalAdmin && e.before != ProofSubmitted && e.before != CreditorConfirmed
    ensures e.tag == LabelSettled || e.tag == LabelSettledOverride <==> e.after == Settled
    ensures e.tag == LabelSettledOverride <==>
            e.after == Settled && e.actor.isGlobalAdmin && e.before != CreditorConfirmed
  {
    AllowedSteps(e.action, e.actor, e.before);
  }

  // ---------------------------------------------------------------------------
  // What a whole history can contain

  /** Nothing follows a settlement: a step that is not the last did not settle. */
  lemma SettledIsFinal(h: seq<Entry>, from: UserId, to: UserId, i: nat)
    requires Chain(h, from, to) && i + 1 < |h|
    ensures h[i].after != Settled
  {
    assert Linked(h, i + 1) && Lawful(h[i+1], from, to);
  }

  /** No step by the debtor, whatever else that user may be, confirms or settles. */
  lemma DebtorNeverAdvances(h: seq<Entry>, from: UserId, to: UserId, i: nat)
    requires Chain(h, from, to) && from != to && i < |h| && h[i].user == from
    ensures h[i].after != CreditorConfirmed && h[i].after != Settled
  {
    assert Lawful(h[i], from, to);
  }

  /** A run of steps by the debtor alone never gets past a submitted proof. */
  lemma DebtorAlone(h: seq<Entry>, from: UserId, to: UserId)
    requires Chain(h, from, to) && from != to && forall i :: 0 <= i < |h| ==> h[i].user == from
    ensures StatusAfter(h) in {Pending, ProofSubmitted, Disputed}
  {
    if h != [] {
      DebtorNeverAdvances(h, from, to, |h| - 1);
    }
  }

  /** The last three steps: the debtor proved, the creditor confirmed, and an
      admin who is not the debtor finalized. */
  predicate BothKeys(h: seq<Entry>, from: UserId, to: UserId) {
    var n := |h|;
    && n >= 3
    && h[n-3].action == SubmitProof && h[n-3].user == from
    && h[n-2].action == Confirm && h[n-2].user == to
    && h[n-1].action == Finalize && h[n-1].user != from
    && (h[n-1].actor.isGroupAdmin || h[n-1].actor.isGlobalAdmin)
    && h[n-1].tag == LabelSettled
  }

  /** The last step: a global admin who is not the debtor finalized a payment
      the creditor had not confirmed, and the log says so. */
  predicate Overridden(h: seq<Entry>, from: UserId) {
    var n := |h|;
    && n >= 1
    && h[n-1].action == Finalize && h[n-1].user != from
    && h[n-1].actor.isGlobalAdmin && h[n-1].before != CreditorConfirmed
    && h[n-1].tag == LabelSettledOverride
  }

  /** Every settled history ends in one of exactly two ways, and the label of
      its last step tells which. */
  lemma TwoKeys(h: seq<Entry>, from: UserId, to: UserId)
    requires Chain(h, from, to) && from != to && StatusAfter(h) == Settled
    ensures BothKeys(h, from, to) != Overridden(h, from)
  {
    var n := |h|;
    assert Lawful(h[n-1], from, to);
    if h[n-1].tag != LabelSettledOverride {
      assert h[n-1].before == CreditorConfirmed;
      assert Linked(h, n - 1) && Lawful(h[n-2], from, to);
      assert Linked(h, n - 2) && Lawful(h[n-3], from, to);
    }
  }

  /** A disputed payment is settled, except by an override, only after a new proof. */
  lemma DisputeNeedsNewProof(h: seq<Entry>, from: UserId, to: UserId, i: nat)
    requires Chain(h, from, to) && from != to && i < |h| && h[i].after == Disputed
    requires StatusAfter(h) == Settled && h[|h|-1].tag != LabelSettledOverride
    ensures i < |h| - 3 && h[|h|-3].action == SubmitProof
  {
    TwoKeys(h, from, to);
    assert Linked(h, |h| - 1) && Lawful(h[|h|-2], from, to);
    assert Linked(h, |h| - 2) && Lawful(h[|h|-3], from, to);
  }
}
