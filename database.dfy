/**
 * The hosted store the application talks to, as in-memory tables: the rows
 * of `family_members`, `family_media`, `family_relationships`,
 * `family_requests` and `user_profiles`, and the accounts of the
 * authentication service. Row ids are handed out by the store from one
 * counter, so an inserted row's id is never in use.
 */
module Database {
  import opened Optional

  type Id = nat
  type Timestamp = int

  /** A `family_members` row. */
  datatype Member = Member(
    id: Id,
    firstName: string,
    lastName: string,
    birthDate: Option<string>,
    deathDate: Option<string>,
    birthPlace: Option<string>,
    currentLocation: Option<string>,
    occupation: Option<string>,
    phoneNumber: Option<string>,
    email: Option<string>,
    bio: Option<string>,
    profileImageUrl: Option<string>,
    gender: Option<string>,
    verified: Option<bool>,
    addedBy: Option<Id>)

  /** A `family_media` row. */
  datatype MediaRow = MediaRow(
    id: Id,
    familyMemberId: Option<Id>,
    mediaType: string,
    mediaUrl: string,
    title: Option<string>,
    description: Option<string>,
    dateTaken: Option<string>,
    location: Option<string>)

  /** A `family_relationships` row: a directed, labelled edge. */
  datatype Relationship = Relationship(
    id: Id,
    personId: Option<Id>,
    relatedPersonId: Option<Id>,
    relationshipType: string,
    addedBy: Option<Id>)

  /** The existing member a candidate claims to be related to. */
  datatype Connection = Connection(existingMemberId: Id, relationshipType: string, memberName: string)

  /** The `candidate_info` part of a request payload. */
  datatype CandidateInfo = CandidateInfo(
    firstName: string,
    lastName: string,
    email: string,
    fatherName: string,
    motherName: string)

  /** The `request_data` payload of a family request. */
  datatype RequestData = RequestData(
    candidate: CandidateInfo,
    connection: Option<Connection>,
    validationScore: int,
    validationReasons: seq<string>)

  /** A `family_requests` row. */
  datatype Request = Request(
    id: Id,
    requesterId: Id,
    requestType: string,
    targetMemberId: Id,
    data: RequestData,
    status: Option<string>,
    reviewComment: Option<string>,
    reviewedAt: Option<Timestamp>,
    createdAt: Timestamp)

  /** A `user_profiles` row; its id is the account's id. */
  datatype Profile = Profile(id: Id, familyMemberId: Option<Id>, canAddMembers: Option<bool>)

  /** An account of the authentication service, with the metadata given at sign-up. */
  datatype Account = Account(id: Id, email: string, firstName: string, lastName: string, name: string)

  datatype Tables = Tables(
    accounts: seq<Account>,
    requests: seq<Request>,
    members: seq<Member>,
    relationships: seq<Relationship>,
    profiles: seq<Profile>,
    nextId: Id)

  /** Every id the store handed out is below its counter. */
  ghost predicate TablesValid(t: Tables)
  {
    && (forall i :: 0 <= i < |t.accounts| ==> t.accounts[i].id < t.nextId)
    && (forall i :: 0 <= i < |t.requests| ==> t.requests[i].id < t.nextId)
    && (forall i :: 0 <= i < |t.members| ==> t.members[i].id < t.nextId)
    && (forall i :: 0 <= i < |t.relationships| ==> t.relationships[i].id < t.nextId)
  }

  /** The store's counter after it hands out one id. */
  function Bump(t: Tables): Tables
  {
    t.(nextId := t.nextId + 1)
  }

  function AddAccount(t: Tables, a: Account): Tables
  {
    Bump(t.(accounts := t.accounts + [a.(id := t.nextId)]))
  }

  function AddRequest(t: Tables, r: Request): Tables
  {
    Bump(t.(requests := t.requests + [r.(id := t.nextId)]))
  }

  function AddMember(t: Tables, m: Member): Tables
  {
    Bump(t.(members := t.members + [m.(id := t.nextId)]))
  }

  function AddRelationship(t: Tables, e: Relationship): Tables
  {
    Bump(t.(relationships := t.relationships + [e.(id := t.nextId)]))
  }

  /** `update({status, review_comment, reviewed_at}).eq('id', id)`: every
      row with that id is rewritten, the others are kept. */
  function SetReview(rs: seq<Request>, id: Id, status: string, comment: Option<string>, at: Timestamp): (r: seq<Request>)
    ensures |r| == |rs|
    ensures forall i :: 0 <= i < |rs| && rs[i].id != id ==> r[i] == rs[i]
    ensures forall i :: 0 <= i < |rs| && rs[i].id == id ==>
      && r[i].status == Some(status) && r[i].reviewComment == comment && r[i].reviewedAt == Some(at)
      && r[i].(status := rs[i].status, reviewComment := rs[i].reviewComment, reviewedAt := rs[i].reviewedAt) == rs[i]
  {
    seq(|rs|, i requires 0 <= i < |rs| =>
      if rs[i].id == id then rs[i].(status := Some(status), reviewComment := comment, reviewedAt := Some(at))
      else rs[i])
  }

  /** `update({family_member_id, can_add_members: true}).eq('id', user)`. */
  function LinkProfile(ps: seq<Profile>, user: Id, member: Id): (r: seq<Profile>)
    ensures |r| == |ps|
    ensures forall i :: 0 <= i < |ps| && ps[i].id != user ==> r[i] == ps[i]
    ensures forall i :: 0 <= i < |ps| && ps[i].id == user ==>
      r[i] == Profile(user, Some(member), Some(true))
  {
    seq(|ps|, i requires 0 <= i < |ps| =>
      if ps[i].id == user then ps[i].(familyMemberId := Some(member), canAddMembers := Some(true))
      else ps[i])
  }

  /** The store itself, whose tables each write replaces. */
  class Store {
    var accounts: seq<Account>
    var requests: seq<Request>
    var members: seq<Member>
    var relationships: seq<Relationship>
    var profiles: seq<Profile>
    var nextId: Id

    function State(): Tables
      reads this
    {
      Tables(accounts, requests, members, relationships, profiles, nextId)
    }

    ghost predicate Valid()
      reads this
    {
      TablesValid(State())
    }

    constructor (t: Tables)
      requires TablesValid(t)
      ensures Valid() && State() == t
    {
      accounts, requests, members := t.accounts, t.requests, t.members;
      relationships, profiles, nextId := t.relationships, t.profiles, t.nextId;
    }

    /** The authentication service creates an account. */
    method CreateAccount(a: Account) returns (id: Id)
      requires Valid()
      modifies this
      ensures Valid() && State() == AddAccount(old(State()), a) && id == old(nextId)
    {
      id := nextId;
      accounts := accounts + [a.(id := id)];
      nextId := nextId + 1;
    }

    method InsertRequest(r: Request) returns (id: Id)
      requires Valid()
      modifies this
      ensures Valid() && State() == AddRequest(old(State()), r) && id == old(nextId)
    {
      id := nextId;
      requests := requests + [r.(id := id)];
      nextId := nextId + 1;
    }

    /** `insert([...]).select().single()` on `family_members`: returns the stored row. */
    method InsertMember(m: Member) returns (row: Member)
      requires Valid()
      modifies this
      ensures Valid() && State() == AddMember(old(State()), m) && row == m.(id := old(nextId))
    {
      row := m.(id := nextId);
      members := members + [row];
      nextId := nextId + 1;
    }

    method InsertRelationship(e: Relationship) returns (row: Relationship)
      requires Valid()
      modifies this
      ensures Valid() && State() == AddRelationship(old(State()), e) && row == e.(id := old(nextId))
    {
      row := e.(id := nextId);
      relationships := relationships + [row];
      nextId := nextId + 1;
    }

    method UpdateReview(id: Id, status: string, comment: Option<string>, at: Timestamp)
      requires Valid()
      modifies this
      ensures Valid()
      ensures State() == old(State()).(requests := SetReview(old(requests), id, status, comment, at))
    {
      requests := SetReview(requests, id, status, comment, at);
    }

    method UpdateProfile(user: Id, member: Id)
      requires Valid()
      modifies this
      ensures Valid()
      ensures State() == old(State()).(profiles := LinkProfile(old(profiles), user, member))
    {
      profiles := LinkProfile(profiles, user, member);
    }
  }
}
