/**
 * The administrators' review of family requests: the list, newest first;
 * the status classification used to colour each entry; and the approve or
 * reject handler, which rewrites the request's status and, on approval,
 * turns the candidate into a verified member, links it to the member it
 * claimed, and grants the requester's profile. The writes are sequential
 * and not transactional: the first failing write stops the handler and the
 * earlier ones stay.
 */
module Review {
  import opened Optional
  import opened Database
  import opened Sorting

  datatype Action = Approve | Reject

  /** The writes of the handler, in the order it makes them. */
  datatype Step = StatusUpdate | MemberInsert | RelationshipInsert | ProfileUpdate

  /** The store rejects the write of `step` with `message`. */
  datatype Fault = Fault(step: Step, message: string)

  datatype Outcome = Done | Failed(step: Step, message: string)

  /** The list query: every request, ordered by `created_at` descending. */
  function ListRequests(t: Tables): (r: seq<Request>)
    ensures forall i, j :: 0 <= i < j < |r| ==> r[i].createdAt >= r[j].createdAt
    ensures multiset(r) == multiset(t.requests)
  {
    SortBy(t.requests, (q: Request) => -q.createdAt)
  }

  datatype StatusClass = ApprovedClass | RejectedClass | PendingClass

  /** The `switch` shared by the icon and the colour: anything other than
      `approved` or `rejected`, a missing status included, looks pending. */
  function Classify(status: Option<string>): (c: StatusClass)
    ensures c == ApprovedClass <==> status == Some("approved")
    ensures c == RejectedClass <==> status == Some("rejected")
    ensures c == PendingClass <==> status != Some("approved") && status != Some("rejected")
  {
    if status == Some("approved") then ApprovedClass
    else if status == Some("rejected") then RejectedClass
    else PendingClass
  }

  datatype Icon = CheckCircle | XCircle | Clock

  function StatusIcon(status: Option<string>): (i: Icon)
    ensures i == Clock <==> Classify(status) == PendingClass
  {
    match Classify(status)
    case ApprovedClass => CheckCircle
    case RejectedClass => XCircle
    case PendingClass => Clock
  }

  function StatusColor(status: Option<string>): (c: string)
    ensures c == "bg-yellow-50 text-yellow-800 border-yellow-200" <==> Classify(status) == PendingClass
  {
    match Classify(status)
    case ApprovedClass => "bg-green-50 text-green-800 border-green-200"
    case RejectedClass => "bg-red-50 text-red-800 border-red-200"
    case PendingClass => "bg-yellow-50 text-yellow-800 border-yellow-200"
  }

  /** The status an action writes, which the list then shows in the action's own class. */
  function NewStatus(action: Action): (s: string)
    ensures Classify(Some(s)) == (if action == Approve then ApprovedClass else RejectedClass)
  {
    if action == Approve then "approved" else "rejected"
  }

  /** `requests.find(r => r.id === id)` on the list as last loaded. */
  function FindRequest(loaded: seq<Request>, id: Id): (r: Option<Request>)
    ensures r.Some? ==> r.value in loaded && r.value.id == id
    ensures r.None? ==> forall q :: q in loaded ==> q.id != id
    ensures r.Some? ==> exists i :: 0 <= i < |loaded| && loaded[i] == r.value
                          && forall j :: 0 <= j < i ==> loaded[j].id != id
  {
    if loaded == [] then None
    else if loaded[0].id == id then Some(loaded[0])
    else
      var r := FindRequest(loaded[1..], id);
      if r.Some? then
        var i :| 0 <= i < |loaded[1..]| && loaded[1..][i] == r.value
                 && forall j :: 0 <= j < i ==> loaded[1..][j].id != id;
        assert loaded[i + 1] == r.value;
        assert forall j :: 0 <= j < i + 1 ==> loaded[j].id != id by {
          forall j | 0 <= j < i + 1 ensures loaded[j].id != id {
            if j > 0 { assert loaded[j] == loaded[1..][j - 1]; }
          }
        }
        r
      else r
  }

  /** The member made from an approved request's candidate. */
  function CandidateMember(req: Request): Member
  {
    var c := req.data.candidate;
    Member(0, c.firstName, c.lastName, None, None, None, None, None, None, Some(c.email), None, None, None,
           Some(true), Some(req.requesterId))
  }

  /** The edge from the new member to the member the candidate claimed. */
  function ConnectionEdge(req: Request, member: Id, c: Connection): Relationship
  {
    Relationship(0, Some(member), Some(c.existingMemberId), c.relationshipType, Some(req.requesterId))
  }

  function FaultAt(fault: Option<Fault>, step: Step): bool
  {
    fault.Some? && fault.value.step == step
  }

  /** The handler's effect on the store and its outcome, write by write.
      The status write comes first: if the store rejects it nothing changes;
      otherwise every row with the id gets the action's status, the
      normalised comment and the review time, and every other row is kept.
      Rejecting writes the request rows only. */
  function Decide(t: Tables, id: Id, action: Action, comment: Option<string>, loaded: seq<Request>,
                  now: Timestamp, fault: Option<Fault>): (r: (Tables, Outcome))
    ensures FaultAt(fault, StatusUpdate) ==> r == (t, Failed(StatusUpdate, fault.value.message))
    ensures !FaultAt(fault, StatusUpdate) ==>
      && |r.0.requests| == |t.requests|
      && forall i :: 0 <= i < |t.requests| ==>
           if t.requests[i].id == id then
             && r.0.requests[i].status == Some(NewStatus(action))
             && r.0.requests[i].reviewComment == (if comment == Some("") then None else comment)
             && r.0.requests[i].reviewedAt == Some(now)
             && r.0.requests[i].data == t.requests[i].data
             && r.0.requests[i].requesterId == t.requests[i].requesterId
           else r.0.requests[i] == t.requests[i]
    ensures action == Reject ==>
      && r.0.members == t.members && r.0.relationships == t.relationships && r.0.profiles == t.profiles
      && r.0.accounts == t.accounts && r.0.nextId == t.nextId
      && (r.1 == Done <==> !FaultAt(fault, StatusUpdate))
  {
    if FaultAt(fault, StatusUpdate) then (t, Failed(StatusUpdate, fault.value.message))
    else
      var t1 := t.(requests := SetReview(t.requests, id, NewStatus(action), OrNull(comment), now));
      if action == Reject then (t1, Done)
      else match FindRequest(loaded, id)
        case None => (t1, Done)
        case Some(req) =>
          if FaultAt(fault, MemberInsert) then (t1, Failed(MemberInsert, fault.value.message))
          else
            var member := t1.nextId;
            var t2 := AddMember(t1, CandidateMember(req));
            var linked :=
              match req.data.connection
              case None => (t2, Done)
              case Some(c) =>
                if FaultAt(fault, RelationshipInsert) then (t2, Failed(RelationshipInsert, fault.value.message))
                else (AddRelationship(t2, ConnectionEdge(req, member, c)), Done);
            if linked.1.Failed? then linked
            else if FaultAt(fault, ProfileUpdate) then (linked.0, Failed(ProfileUpdate, fault.value.message))
            else (linked.0.(profiles := LinkProfile(linked.0.profiles, req.requesterId, member)), Done)
  }

  /** Approving an id that is not in the loaded list writes the status only. */
  lemma ApproveUnknownRequest(t: Tables, id: Id, comment: Option<string>, loaded: seq<Request>,
                              now: Timestamp, fault: Option<Fault>)
    requires forall q :: q in loaded ==> q.id != id
    ensures var (t', out) := Decide(t, id, Approve, comment, loaded, now, fault);
      && t'.members == t.members && t'.relationships == t.relationships && t'.profiles == t.profiles
      && t'.nextId == t.nextId
  {
    assert FindRequest(loaded, id).None?;
  }

  /** A successful approval of a loaded request: exactly one new verified
      member with the candidate's names and e-mail, owned by the requester;
      one edge from it to the claimed member when the request has a
      connection and none otherwise; and every profile of the requester
      points at the new member and may add members. */
  lemma ApproveMaterialises(t: Tables, id: Id, comment: Option<string>, loaded: seq<Request>,
                            now: Timestamp, req: Request)
    requires req in loaded && req.id == id
    requires forall q :: q in loaded && q.id == id ==> q == req
    ensures var (t', out) := Decide(t, id, Approve, comment, loaded, now, None);
      var c := req.data.candidate;
      var m := t'.members[|t.members|];
      && out == Done
      && |t'.members| == |t.members| + 1 && t'.members[..|t.members|] == t.members
      && m.id == t.nextId && m.firstName == c.firstName && m.lastName == c.lastName
      && m.email == Some(c.email) && m.verified == Some(true) && m.addedBy == Some(req.requesterId)
      && (req.data.connection.None? ==> t'.relationships == t.relationships)
      && (req.data.connection.Some? ==>
            && |t'.relationships| == |t.relationships| + 1
            && t'.relationships[..|t.relationships|] == t.relationships
            && var e := t'.relationships[|t.relationships|];
               e.personId == Some(m.id) && e.relatedPersonId == Some(req.data.connection.value.existingMemberId)
               && e.relationshipType == req.data.connection.value.relationshipType
               && e.addedBy == Some(req.requesterId))
      && |t'.profiles| == |t.profiles|
      && (forall i :: 0 <= i < |t.profiles| ==>
           if t.profiles[i].id == req.requesterId then
             t'.profiles[i].familyMemberId == Some(m.id) && t'.profiles[i].canAddMembers == Some(true)
           else t'.profiles[i] == t.profiles[i])
      && t'.accounts == t.accounts
      && t'.nextId == t.nextId + (if req.data.connection.Some? then 2 else 1)
  {
    var found := FindRequest(loaded, id);
    assert found == Some(req);
    var (t', out) := Decide(t, id, Approve, comment, loaded, now, None);
    assert t'.members == t.members + [t'.members[|t.members|]];
    if req.data.connection.Some? {
      assert t'.relationships == t.relationships + [t'.relationships[|t.relationships|]];
    }
  }

  /** A write the store rejects stops the handler there: the writes before it
      stay (the status first of all), the ones after it never happen. */
  lemma ApprovePartialFailure(t: Tables, id: Id, comment: Option<string>, loaded: seq<Request>,
                              now: Timestamp, req: Request, msg: string)
    requires req in loaded && req.id == id
    requires forall q :: q in loaded && q.id == id ==> q == req
    ensures var (t', out) := Decide(t, id, Approve, comment, loaded, now, Some(Fault(MemberInsert, msg)));
      && out == Failed(MemberInsert, msg)
      && t'.requests == SetReview(t.requests, id, "approved", OrNull(comment), now)
      && t'.members == t.members && t'.relationships == t.relationships && t'.profiles == t.profiles
      && t'.accounts == t.accounts && t'.nextId == t.nextId
    ensures req.data.connection.Some? ==>
      var (t', out) := Decide(t, id, Approve, comment, loaded, now, Some(Fault(RelationshipInsert, msg)));
      && out == Failed(RelationshipInsert, msg)
      && t'.requests == SetReview(t.requests, id, "approved", OrNull(comment), now)
      && t'.members == t.members + [CandidateMember(req).(id := t.nextId)]
      && t'.relationships == t.relationships && t'.profiles == t.profiles
      && t'.accounts == t.accounts && t'.nextId == t.nextId + 1
    ensures var (t', out) := Decide(t, id, Approve, comment, loaded, now, Some(Fault(ProfileUpdate, msg)));
      && out == Failed(ProfileUpdate, msg)
      && t'.requests == SetReview(t.requests, id, "approved", OrNull(comment), now)
      && t'.members == t.members + [CandidateMember(req).(id := t.nextId)]
      && t'.relationships == t.relationships
           + (if req.data.connection.Some?
              then [ConnectionEdge(req, t.nextId, req.data.connection.value).(id := t.nextId + 1)]
              else [])
      && t'.profiles == t.profiles
      && t'.accounts == t.accounts
  {
    assert FindRequest(loaded, id) == Some(req);
  }

  /** The handler does not look at the current status: approving the same
      loaded request twice creates two members. */
  lemma ApproveTwiceDuplicates(t: Tables, id: Id, loaded: seq<Request>, now: Timestamp, later: Timestamp, req: Request)
    requires req in loaded && req.id == id
    requires forall q :: q in loaded && q.id == id ==> q == req
    ensures var (t1, _) := Decide(t, id, Approve, None, loaded, now, None);
      var (t2, out) := Decide(t1, id, Approve, None, loaded, later, None);
      out == Done && |t2.members| == |t.members| + 2
      && t2.members[|t.members|].firstName == t2.members[|t.members| + 1].firstName
      && t2.members[|t.members|].id != t2.members[|t.members| + 1].id
  {
    ApproveMaterialises(t, id, None, loaded, now, req);
    var (t1, _) := Decide(t, id, Approve, None, loaded, now, None);
    ApproveMaterialises(t1, id, None, loaded, later, req);
  }

  /** The handler: writes the review, then, for an approval of a loaded
      request, the member, the edge and the profile, stopping at the first
      write the store rejects (`fault`). */
  method HandleRequestAction(db: Store, id: Id, action: Action, comment: Option<string>,
                             loaded: seq<Request>, now: Timestamp, fault: Option<Fault>) returns (out: Outcome)
    requires db.Valid()
    modifies db
    ensures db.Valid()
    ensures (db.State(), out) == Decide(old(db.State()), id, action, comment, loaded, now, fault)
  {
    if FaultAt(fault, StatusUpdate) {
      return Failed(StatusUpdate, fault.value.message);
    }
    db.UpdateReview(id, NewStatus(action), OrNull(comment), now);
    if action == Approve {
      var request := FindRequest(loaded, id);
      if request.Some? {
        var req := request.value;
        if FaultAt(fault, MemberInsert) {
          return Failed(MemberInsert, fault.value.message);
        }
        var newMember := db.InsertMember(CandidateMember(req));
        var connection := req.data.connection;
        if connection.Some? {
          if FaultAt(fault, RelationshipInsert) {
            return Failed(RelationshipInsert, fault.value.message);
          }
          var _ := db.InsertRelationship(ConnectionEdge(req, newMember.id, connection.value));
        }
        if FaultAt(fault, ProfileUpdate) {
          return Failed(ProfileUpdate, fault.value.message);
        }
        db.UpdateProfile(req.requesterId, newMember.id);
      }
    }
    out := Done;
  }
}
