/** The walk over the members of a combo. */
module Combo {
  /** What one member of a combo led to. */
  datatype Member =
    | NestedAuto
    | Unselectable
    | ExecutionError
    | Answer(status: int, unsupportedFeature: bool)

  datatype WalkEnd = Forwarded(index: nat) | Aborted | Exhausted(status: int)

  predicate HasWalkStatus(m: Member) {
    m.Answer? && (m.status >= 500 || (m.status == 422 && m.unsupportedFeature))
  }

  predicate Advances(m: Member) {
    !m.Answer? || HasWalkStatus(m)
  }

  /** An answer is forwarded unless the upstream failed or cannot do what was asked; no answer is not. */
  lemma ForwardedExactlyWhen(m: Member)
    ensures !Advances(m) <==> m.Answer? && m.status < 500 && !(m.status == 422 && m.unsupportedFeature)
    ensures HasWalkStatus(m) <==> m.Answer? && Advances(m)
  {
  }

  /** `status` is that of the last member with one, or 503 if none has. */
  ghost predicate IsLastStatus(members: seq<Member>, status: int) {
    if exists i :: 0 <= i < |members| && HasWalkStatus(members[i]) then
      exists i :: 0 <= i < |members| && HasWalkStatus(members[i]) && members[i].status == status
                  && forall j :: i < j < |members| ==> !HasWalkStatus(members[j])
    else status == 503
  }

  /** The first member whose answer is not walked past is forwarded; if the walk runs out,
      the client sees the last upstream failure of the walk. */
  method HandleCombo(members: seq<Member>, cancelled: nat -> bool) returns (r: WalkEnd)
    ensures r.Forwarded? ==> r.index < |members| && !Advances(members[r.index])
                             && forall i :: 0 <= i < r.index ==> Advances(members[i]) && !cancelled(i)
    ensures r.Aborted? ==> exists k :: 0 <= k < |members| && cancelled(k)
                                       && forall i :: 0 <= i < k ==> Advances(members[i])
    ensures r.Exhausted? ==> (forall i :: 0 <= i < |members| ==> Advances(members[i])) && IsLastStatus(members, r.status)
  {
    var lastWalkStatus := 0;
    var k := 0;
    while k < |members|
      invariant 0 <= k <= |members|
      invariant forall i :: 0 <= i < k ==> Advances(members[i]) && !cancelled(i)
      invariant lastWalkStatus == 0 <==> forall i :: 0 <= i < k ==> !HasWalkStatus(members[i])
      invariant lastWalkStatus >= 0
      invariant lastWalkStatus > 0 ==>
                  exists i :: 0 <= i < k && HasWalkStatus(members[i]) && members[i].status == lastWalkStatus
                              && forall j :: i < j < k ==> !HasWalkStatus(members[j])
    {
      if cancelled(k) {
        return Aborted;
      }
      match members[k] {
        case NestedAuto =>
        case Unselectable =>
        case ExecutionError =>
        case Answer(status, unsupported) =>
          if status >= 500 || (status == 422 && unsupported) {
            lastWalkStatus := status;
          } else {
            return Forwarded(k);
          }
      }
      k := k + 1;
    }
    return Exhausted(if lastWalkStatus > 0 then lastWalkStatus else 503);
  }
}
