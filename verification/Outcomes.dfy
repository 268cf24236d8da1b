/** What a pass of a controller decides: the variables its return closures set
    (returnUpdating, returnError, returnNotReady, returnRequeue, returnReady). */
module Outcomes {
  import opened Wrappers
  import opened Conditions
  import Reason

  datatype Judgment = Judgment(verdict: Verdict, why: Why)

  /** ctrl.Result, the error, and the status, reason and message of the ready
      condition; nothing is judged until a pass decides. */
  datatype Outcome = Outcome(requeue: bool, err: Option<Error>, judged: Option<Judgment>, message: Message)

  const UNDECIDED: Outcome := Outcome(false, None, None, Silent)

  function ReturnUpdating(what: What): Outcome {
    Outcome(true, None, Some(Judgment(Unsure, Why.Updating)), Says(what))
  }

  function ReturnError(e: Error, why: Why, message: Message): Outcome {
    Outcome(false, Some(e), Some(Judgment(No, why)), message)
  }

  /** The instance controller's returnError keeps what was said before, behind
      the new message. */
  function ReturnErrorAfter(before: Outcome, e: Error, why: Why, what: What): Outcome {
    ReturnError(e, why, if before.message == Silent then Says(what) else Before(what, before.message))
  }

  function ReturnNotReady(why: Why, message: Message): Outcome {
    Outcome(false, None, Some(Judgment(No, why)), message)
  }

  function ReturnRequeue(why: Why, message: Message): Outcome {
    Outcome(true, None, Some(Judgment(No, why)), message)
  }

  /** returnReady leaves the message as it is. */
  function ReturnReady(before: Outcome, why: Why): Outcome {
    Outcome(false, None, Some(Judgment(Yes, why)), before.message)
  }

  /** How a pass ends: whether it asks for another one, whether it reports an error, and
      what it says and why. */
  datatype End = End(requeue: bool, failed: bool, verdict: Verdict, why: Why)

  predicate EndsAs(requeue: bool, err: Option<Error>, judged: Option<Judgment>, e: End) {
    requeue == e.requeue && err.Some? == e.failed && judged == Some(Judgment(e.verdict, e.why))
  }

  predicate Ended(o: Outcome, e: End) {
    EndsAs(o.requeue, o.err, o.judged, e)
  }

  /** A verdict that is not success. */
  predicate Unsuccessful(o: Outcome) {
    o.judged.Some? && o.judged.value.verdict != Yes
  }

  lemma RequeueEnds(why: Why, message: Message)
    ensures Unsuccessful(ReturnRequeue(why, message)) && Ended(ReturnRequeue(why, message), End(true, false, No, why))
  {
  }

  /** How a pass ends when a call failed: with the error, or to be tried again at once
      where someone else was faster. */
  predicate Interrupted(o: Outcome) {
    && Unsuccessful(o)
    && if o.err.Some? then !o.requeue && o.judged.value.why == BackendError
       else o.requeue && o.judged.value.why == Why.Updating
  }

  lemma InterruptedIsRetried(o: Outcome)
    requires Interrupted(o)
    ensures o.requeue || o.err.Some?
  {
  }

  lemma FailureInterrupts(before: Outcome, e: Error, what: What)
    ensures Interrupted(ReturnErrorAfter(before, e, BackendError, what)) && Interrupted(ReturnUpdating(what))
  {
  }

  /** The ready condition a pass commits. */
  function ConditionOf(ctype: string, o: Outcome): Condition {
    match o.judged
    case None => Condition(ctype, "", "", o.message, None)
    case Some(j) => Condition(ctype, StatusText(j.verdict), ReasonText(j.why), o.message, None)
  }

  /** What the deferred status write makes of its own failure: another pass makes up for
      it, at once where someone else was faster, and otherwise because an error is
      reported, an earlier one first. */
  function AfterCommit(o: Outcome, e: Option<Error>): (r: Outcome)
    ensures r.judged == o.judged && r.message == o.message && (e.None? ==> r == o)
    ensures e.Some? ==> r.requeue || r.err.Some?
    ensures r.requeue <==> o.requeue || e == Some(Conflict)
    ensures r.err == if o.err.Some? || e == Some(Conflict) then o.err else e
  {
    match e
    case None => o
    case Some(Conflict) => o.(requeue := true)
    case Some(e) => if o.err.None? then o.(err := Some(e)) else o
  }

  /** A pass that judged commits a condition the CRD accepts; one that did not
      would commit one it rejects. */
  lemma JudgedIffWellFormed(ctype: string, o: Outcome)
    ensures o.judged.Some? <==> WellFormed(ConditionOf(ctype, o).status, ConditionOf(ctype, o).reason)
    ensures o.judged.Some? ==> Reason.Matches(ConditionOf(ctype, o).reason)
  {
    if o.judged.Some? {
      ReasonsFit(o.judged.value.why);
    }
  }

  /** Committing a judged outcome keeps a status acceptable. */
  lemma CommitKeepsCommittable(cs: seq<Condition>, o: Outcome, now: int, ready: string)
    requires Committable(cs, ready) && o.judged.Some?
    ensures Committable(SetStatusCondition(cs, ConditionOf(ready, o), now), ready)
  {
    JudgedIffWellFormed(ready, o);
    SetKeepsCommittable(cs, ConditionOf(ready, o), now, ready);
  }

  /** The condition of this type says the verdict and its reason in the CRD's own words. */
  predicate Reads(cs: seq<Condition>, ctype: string, j: Judgment) {
    var found := FindStatusCondition(cs, ctype);
    && found.Some?
    && found.value.status == (match j.verdict case Yes => "True" case No => "False" case Unsure => "Unknown")
    && found.value.reason == (match j.why
                              case SyncOK => "SyncOK"
                              case Ready => "Ready"
                              case Updating => "Updating"
                              case Creating => "Creating"
                              case Deleting => "Deleting"
                              case Terminated => "Terminated"
                              case InputError => "InputError"
                              case BackendError => "BackendError"
                              case Absent => "NotFound"
                              case Unreachable => "Unreachable")
  }

  /** That is what is stored. */
  lemma CommitReads(cs: seq<Condition>, o: Outcome, now: int, ready: string)
    requires UniqueTypes(cs) && o.judged.Some?
    ensures Reads(SetStatusCondition(cs, ConditionOf(ready, o), now), ready, o.judged.value)
  {
    SetKeepsTypesUnique(cs, ConditionOf(ready, o), now);
  }

  /** And the status then says true exactly when the verdict does. */
  lemma CommitSays(cs: seq<Condition>, o: Outcome, now: int, ready: string)
    requires UniqueTypes(cs) && o.judged.Some?
    ensures SaysTrue(SetStatusCondition(cs, ConditionOf(ready, o), now), ready) <==> o.judged.value.verdict == Yes
  {
    SetKeepsTypesUnique(cs, ConditionOf(ready, o), now);
    assert |StatusText(Yes)| == 4 && |StatusText(No)| == 5 && |StatusText(Unsure)| == 7;
  }
}
