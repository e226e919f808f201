/** Short-lived approvals held by the console process, one at most for each run. */
module Approvals {
  import opened Keyed
  import opened PythonText
  import opened ConsoleRuns

  datatype Refusal =
    | UnknownRun | NotPlanning | NotPromotable | NotReady | NotEligible | SlotTaken | NotAwaiting
    | ApprovalMissing | WrongConfirmation | InvalidConfirmation | NotCancellable | BrowserBusy
    | InvalidRequest | IncompletePreview

  datatype Reply<+T> = Done(value: T) | Refused(why: Refusal)

  datatype Approval = Approval(
    runId: string,
    planHash: string,
    beforeHash: string,
    changeHash: string,
    phrase: string,
    expires: int
  )

  datatype Confirmation = Confirmation(approvalId: string, planHash: string, beforeHash: string, changeHash: string)

  function UpperHex(s: string): string {
    seq(|s|, i requires 0 <= i < |s| => if 'a' <= s[i] <= 'f' then ((s[i] as int) - 32) as char else s[i])
  }

  function Phrase(runId: string): string {
    "APPLY " + UpperHex(if |runId| < 4 then runId else runId[..4])
  }

  function Envelope(runId: string, p: Preview, now: int, ttl: int): Reply<Approval> {
    if p.status != Ready || p.beforeHash.None? || p.changeHash.None? || !p.hasChange then Refused(IncompletePreview)
    else Done(Approval(runId, p.planHash, p.beforeHash.value, p.changeHash.value, Phrase(runId), now + ttl))
  }

  /** An approval is usable strictly before it expires. */
  predicate Usable(pending: map<string, Approval>, runId: string, now: int) {
    runId in pending && now < pending[runId].expires
  }

  function Confirmed(a: Approval, approvalId: string): Confirmation {
    Confirmation(approvalId, a.planHash, a.beforeHash, a.changeHash)
  }

  /** What `approve` leaves pending: a consumed or an expired approval goes, and one that was
      offered the wrong phrase stays. */
  function AfterApprove(pending: map<string, Approval>, runId: string, phrase: string, acknowledged: bool,
      now: int): map<string, Approval> {
    if Usable(pending, runId, now) && !(acknowledged && Strip(phrase) == pending[runId].phrase) then pending
    else pending - {runId}
  }

  function ApproveReply(pending: map<string, Approval>, runId: string, phrase: string, acknowledged: bool,
      approvalId: string, now: int): Reply<Confirmation> {
    if !Usable(pending, runId, now) then Refused(ApprovalMissing)
    else if !(acknowledged && Strip(phrase) == pending[runId].phrase) then Refused(WrongConfirmation)
    else if !(1 <= |approvalId| <= 200) then Refused(InvalidConfirmation)
    else Done(Confirmed(pending[runId], approvalId))
  }

  function AfterGet(pending: map<string, Approval>, runId: string, now: int): map<string, Approval> {
    if Usable(pending, runId, now) then pending else pending - {runId}
  }

  function GetReply(pending: map<string, Approval>, runId: string, now: int): Option<Approval> {
    if Usable(pending, runId, now) then Some(pending[runId]) else None
  }

  class ApprovalService {
    const ttl: int
    var pending: map<string, Approval>

    constructor (ttl: int)
      ensures this.ttl == ttl && pending == map[]
    {
      this.ttl := ttl;
      pending := map[];
    }

    method Issue(runId: string, preview: Preview, now: int) returns (r: Reply<Approval>)
      modifies this
      ensures r == Envelope(runId, preview, now, ttl)
      ensures r.Done? ==> pending == old(pending)[runId := r.value]
      ensures r.Refused? ==> pending == old(pending)
    {
      if preview.status != Ready || preview.beforeHash == None || preview.changeHash == None || !preview.hasChange {
        return Refused(IncompletePreview);
      }
      var approval := Approval(runId, preview.planHash, preview.beforeHash.value, preview.changeHash.value,
                               Phrase(runId), now + ttl);
      pending := pending[runId := approval];
      return Done(approval);
    }

    /** Consumes an unexpired approval offered with the right phrase. */
    method Approve(runId: string, phrase: string, acknowledged: bool, approvalId: string, now: int)
      returns (r: Reply<Confirmation>)
      modifies this
      ensures pending == AfterApprove(old(pending), runId, phrase, acknowledged, now)
      ensures r == ApproveReply(old(pending), runId, phrase, acknowledged, approvalId, now)
      ensures r.Done? ==> runId in old(pending) && now < old(pending)[runId].expires && runId !in pending
    {
      var approval := Lookup(pending, runId);
      if approval == None || now >= approval.value.expires {
        pending := pending - {runId};
        return Refused(ApprovalMissing);
      }
      if !acknowledged || Strip(phrase) != approval.value.phrase {
        return Refused(WrongConfirmation);
      }
      pending := pending - {runId};
      if approvalId == "" || |approvalId| > 200 {
        return Refused(InvalidConfirmation);
      }
      return Done(Confirmed(approval.value, approvalId));
    }

    method Get(runId: string, now: int) returns (r: Option<Approval>)
      modifies this
      ensures pending == AfterGet(old(pending), runId, now)
      ensures r == GetReply(old(pending), runId, now)
    {
      r := Lookup(pending, runId);
      if r != None && now >= r.value.expires {
        pending := pending - {runId};
        return None;
      }
      assert r == None ==> pending - {runId} == pending;
    }

    method Cancel(runId: string)
      modifies this
      ensures pending == old(pending) - {runId}
    {
      pending := pending - {runId};
    }
  }
}
