/**
 * The family-link step of registration: searching the member directory,
 * choosing the existing member one is related to, the additive validation
 * score, and the submission that creates the account and files a
 * `family_validation` request, approved on the spot when the score reaches
 * the threshold.
 */
module Registration {
  import opened Optional
  import opened Strings
  import opened Database

  /** The gender tags the parent checks require. */
  const Masculine: string := "masculin"
  const Feminine: string := "féminin"

  /** Scores at or above this are approved without review. */
  const AutoApproveThreshold: int := 50

  const FatherPoints: int := 30
  const MotherPoints: int := 30
  const ConnectionPoints: int := 40

  const FamilyValidation: string := "family_validation"
  const Approved: string := "approved"
  const Pending: string := "pending"

  /** A member's `"first last"` display name. */
  function FullName(m: Member): string
  {
    m.firstName + " " + m.lastName
  }

  /** The lower-cased full name contains the lower-cased text (untrimmed). */
  predicate NameMatches(m: Member, text: string)
  {
    Includes(Lower(FullName(m)), Lower(text))
  }

  /** A candidate for a parent check: the name matches and the gender tag is exactly `gender`. */
  predicate ParentMatches(m: Member, name: string, gender: string)
  {
    NameMatches(m, name) && m.gender == Some(gender)
  }

  /** `members.find(...)`: the first member, in directory order, that passes the parent check. */
  function FindParent(members: seq<Member>, name: string, gender: string): (r: Option<Member>)
    ensures r.None? <==> forall i :: 0 <= i < |members| ==> !ParentMatches(members[i], name, gender)
    ensures r.Some? ==> exists i :: 0 <= i < |members| && members[i] == r.value && ParentMatches(r.value, name, gender)
                          && forall j :: 0 <= j < i ==> !ParentMatches(members[j], name, gender)
  {
    if members == [] then None
    else if ParentMatches(members[0], name, gender) then
      Some(members[0])
    else
      var r := FindParent(members[1..], name, gender);
      assert forall i :: 1 <= i < |members| ==> members[i] == members[1..][i - 1];
      if r.Some? then
        var i :| 0 <= i < |members[1..]| && members[1..][i] == r.value && ParentMatches(r.value, name, gender)
                 && forall j :: 0 <= j < i ==> !ParentMatches(members[1..][j], name, gender);
        assert members[i + 1] == r.value;
        assert forall j :: 0 <= j < i + 1 ==> !ParentMatches(members[j], name, gender);
        r
      else r
  }

  /** The parent check, skipped when the entered name is blank. */
  function ParentCheck(members: seq<Member>, name: string, gender: string): Option<Member>
  {
    if Blank(name) then None else FindParent(members, name, gender)
  }

  function FatherReason(m: Member): string
  {
    "Père trouvé: " + FullName(m)
  }

  function MotherReason(m: Member): string
  {
    "Mère trouvée: " + FullName(m)
  }

  function ConnectionReason(c: Connection): string
  {
    "Connexion avec " + c.memberName + " (" + c.relationshipType + ")"
  }

  datatype Score = Score(score: int, reasons: seq<string>)

  /** Some member passes the parent check for a non-blank name. */
  ghost predicate ParentFound(members: seq<Member>, name: string, gender: string)
  {
    !Blank(name) && exists i :: 0 <= i < |members| && ParentMatches(members[i], name, gender)
  }

  /** The additive score: points and a reason for each check that passes,
      in the order father, mother, selected connection. The score is 30 for a
      found father, 30 for a found mother and 40 for a selected connection,
      so it is one of 0, 30, 40, 60, 70, 100; a blank name, or a matching
      name whose member has the other gender tag, adds nothing. */
  function CalculateFamilyScore(members: seq<Member>, fatherName: string, motherName: string,
                                selected: Option<Connection>): (r: Score)
    ensures r.score == (if ParentFound(members, fatherName, Masculine) then 30 else 0)
                       + (if ParentFound(members, motherName, Feminine) then 30 else 0)
                       + (if selected.Some? then 40 else 0)
    ensures r.score in {0, 30, 40, 60, 70, 100}
  {
    var s0 := Score(0, []);
    var father := ParentCheck(members, fatherName, Masculine);
    var s1 := if father.Some? then Score(s0.score + FatherPoints, s0.reasons + [FatherReason(father.value)]) else s0;
    var mother := ParentCheck(members, motherName, Feminine);
    var s2 := if mother.Some? then Score(s1.score + MotherPoints, s1.reasons + [MotherReason(mother.value)]) else s1;
    if selected.Some? then Score(s2.score + ConnectionPoints, s2.reasons + [ConnectionReason(selected.value)]) else s2
  }

  /** One reason per check passed, in the order father, mother, connection:
      the father reason names the first matching man of the directory, the
      mother reason the first matching woman, and the connection reason
      mentions the chosen member's name and the relationship label. */
  lemma ScoreReasons(members: seq<Member>, fatherName: string, motherName: string, selected: Option<Connection>)
    ensures var r := CalculateFamilyScore(members, fatherName, motherName, selected);
      var f := ParentFound(members, fatherName, Masculine);
      var m := ParentFound(members, motherName, Feminine);
      && |r.reasons| == (if f then 1 else 0) + (if m then 1 else 0) + (if selected.Some? then 1 else 0)
      && (f ==> exists i :: 0 <= i < |members| && ParentMatches(members[i], fatherName, Masculine)
                  && (forall j :: 0 <= j < i ==> !ParentMatches(members[j], fatherName, Masculine))
                  && r.reasons[0] == FatherReason(members[i]))
      && (m ==> exists i :: 0 <= i < |members| && ParentMatches(members[i], motherName, Feminine)
                  && (forall j :: 0 <= j < i ==> !ParentMatches(members[j], motherName, Feminine))
                  && r.reasons[if f then 1 else 0] == MotherReason(members[i]))
      && (selected.Some? ==> Includes(r.reasons[|r.reasons| - 1], selected.value.memberName)
                             && Includes(r.reasons[|r.reasons| - 1], selected.value.relationshipType))
  {
    if selected.Some? {
      ConnectionReasonNames(selected.value);
    }
  }

  /** The connection reason mentions the member's name and the label. */
  lemma ConnectionReasonNames(c: Connection)
    ensures Includes(ConnectionReason(c), c.memberName)
    ensures Includes(ConnectionReason(c), c.relationshipType)
  {
    var text := ConnectionReason(c);
    var prefix := "Connexion avec ";
    assert text == prefix + c.memberName + " (" + c.relationshipType + ")";
    assert OccursAt(text, c.memberName, |prefix|);
    assert OccursAt(text, c.relationshipType, |prefix| + |c.memberName| + 2);
  }

  /** The whole directory filtered by the name test, in directory order. */
  function MatchingMembers(members: seq<Member>, term: string): seq<Member>
  {
    if members == [] then []
    else MatchingMembers(members[..|members| - 1], term)
         + (if NameMatches(members[|members| - 1], term) then [members[|members| - 1]] else [])
  }

  /** The search: a blank term leaves the previous results as they were;
      otherwise the results are exactly the members whose full name contains
      the term, ignoring ASCII case. */
  function SearchResults(members: seq<Member>, term: string, previous: seq<Member>): (r: seq<Member>)
    ensures Blank(term) ==> r == previous
    ensures !Blank(term) ==> forall m :: m in r <==> m in members && NameMatches(m, term)
  {
    if Blank(term) then previous
    else
      MatchingMembersIn(members, term);
      MatchingMembers(members, term)
  }

  lemma {:induction false} MatchingMembersIn(members: seq<Member>, term: string)
    ensures forall m :: m in MatchingMembers(members, term) <==> m in members && NameMatches(m, term)
  {
    if members != [] {
      var init := members[..|members| - 1];
      MatchingMembersIn(init, term);
      assert members == init + [members[|members| - 1]];
    }
  }

  /** The search keeps directory order: the matches of a directory split in
      two are the matches of the first part followed by those of the second. */
  lemma {:induction false} MatchingMembersOrder(a: seq<Member>, b: seq<Member>, term: string)
    ensures MatchingMembers(a + b, term) == MatchingMembers(a, term) + MatchingMembers(b, term)
    decreases |b|
  {
    if b == [] {
      assert a + b == a;
    } else {
      var init := b[..|b| - 1];
      MatchingMembersOrder(a, init, term);
      assert (a + b)[..|a + b| - 1] == a + init;
    }
  }

  /** The status a request is filed with. */
  function RequestStatus(score: int): (s: string)
    ensures s == Approved <==> score >= AutoApproveThreshold
    ensures s == Approved || s == Pending
  {
    if score >= AutoApproveThreshold then Approved else Pending
  }

  /** What the authentication service answers to the sign-up. */
  datatype SignUpAnswer = SignUpError(message: string) | NoUserReturned | UserCreated

  datatype SubmitOutcome =
    | ConnectionRequired
    | Failed(message: string)
    | NoAccount
    | Submitted(status: string, score: int)

  /** The data the user typed in the first registration screen. */
  datatype Applicant = Applicant(email: string, password: string, firstName: string, lastName: string)

  /** The row filed for a request. */
  function RequestRow(who: Applicant, fatherName: string, motherName: string, c: Connection, sc: Score,
                      requester: Id, now: Timestamp): Request
  {
    Request(0, requester, FamilyValidation, c.existingMemberId,
            RequestData(CandidateInfo(who.firstName, who.lastName, who.email, fatherName, motherName),
                        Some(c), sc.score, sc.reasons),
            Some(RequestStatus(sc.score)), None, None, now)
  }

  function NewAccount(who: Applicant): Account
  {
    Account(0, who.email, who.firstName, who.lastName, who.firstName + " " + who.lastName)
  }

  /** The submission's effect on the store and what it reports: no selected
      connection stops it before anything else; otherwise the account is
      created, then the request row is inserted; either step's error stops it
      and is reported verbatim. A sign-up error leaves the store as it was; a
      failed insert after a successful sign-up leaves the new account without
      a request. */
  function Submission(t: Tables, who: Applicant, fatherName: string, motherName: string,
                      selected: Option<Connection>, members: seq<Member>,
                      answer: SignUpAnswer, insertError: Option<string>, now: Timestamp): (r: (Tables, SubmitOutcome))
    ensures selected.None? ==> r == (t, ConnectionRequired)
    ensures selected.Some? && answer.SignUpError? ==> r == (t, Failed(answer.message))
    ensures selected.Some? && answer == NoUserReturned ==> r == (t, NoAccount)
    ensures selected.Some? && answer == UserCreated && insertError.Some? ==>
      && r.1 == Failed(insertError.value)
      && r.0.accounts == t.accounts + [NewAccount(who).(id := t.nextId)] && r.0.nextId == t.nextId + 1
      && r.0.requests == t.requests && r.0.members == t.members
      && r.0.relationships == t.relationships && r.0.profiles == t.profiles
  {
    if selected.None? then (t, ConnectionRequired)
    else
      var sc := CalculateFamilyScore(members, fatherName, motherName, selected);
      match answer
      case SignUpError(msg) => (t, Failed(msg))
      case NoUserReturned => (t, NoAccount)
      case UserCreated =>
        var user := t.nextId;
        var t1 := AddAccount(t, NewAccount(who));
        if insertError.Some? then (t1, Failed(insertError.value))
        else (AddRequest(t1, RequestRow(who, fatherName, motherName, selected.value, sc, user, now)),
              Submitted(RequestStatus(sc.score), sc.score))
  }

  /** A request is filed only after the account exists, and only one: it is
      a `family_validation` request from the new account about the selected
      member, carrying the candidate's data, the connection, and the score and
      reasons that decided its status. */
  lemma SubmitFilesOneRequest(t: Tables, who: Applicant, fatherName: string, motherName: string,
                              selected: Option<Connection>, members: seq<Member>,
                              answer: SignUpAnswer, insertError: Option<string>, now: Timestamp)
    ensures var (t', out) := Submission(t, who, fatherName, motherName, selected, members, answer, insertError, now);
      var sc := CalculateFamilyScore(members, fatherName, motherName, selected);
      && (|t'.requests| == |t.requests| + 1 <==> selected.Some? && answer == UserCreated && insertError.None?)
      && (|t'.requests| == |t.requests| + 1 ==>
            var r := t'.requests[|t.requests|];
            && t'.requests[..|t.requests|] == t.requests
            && t'.accounts == t.accounts + [Account(t.nextId, who.email, who.firstName, who.lastName, who.firstName + " " + who.lastName)]
            && r.requesterId == t.nextId
            && r.requestType == "family_validation"
            && r.targetMemberId == selected.value.existingMemberId
            && r.data.candidate == CandidateInfo(who.firstName, who.lastName, who.email, fatherName, motherName)
            && r.data.connection == selected
            && r.data.validationScore == sc.score
            && r.data.validationReasons == sc.reasons
            && r.status == Some(if sc.score >= 50 then "approved" else "pending")
            && out == Submitted(r.status.value, sc.score))
      && (|t'.requests| != |t.requests| + 1 ==> t'.requests == t.requests)
      && t'.members == t.members && t'.relationships == t.relationships && t'.profiles == t.profiles
  {
    var (t', out) := Submission(t, who, fatherName, motherName, selected, members, answer, insertError, now);
    if selected.Some? && answer == UserCreated && insertError.None? {
      assert t'.requests == t.requests + [t'.requests[|t.requests|]];
      assert t'.requests[..|t.requests|] == t.requests;
    }
  }

  /** A submitted request always has the connection's 40 points, so its
      score is 40, 70 or 100 and it is approved exactly when a parent was found. */
  lemma SubmittedStatus(members: seq<Member>, fatherName: string, motherName: string, c: Connection)
    ensures var sc := CalculateFamilyScore(members, fatherName, motherName, Some(c));
      && sc.score in {40, 70, 100}
      && (RequestStatus(sc.score) == Approved <==>
            ParentFound(members, fatherName, Masculine) || ParentFound(members, motherName, Feminine))
  {
  }

  /** A candidate whose father, "Jean Martin", is a man of the directory,
      who leaves the mother's name empty and picks a connection, scores
      30 + 40 = 70 and is approved on the spot. */
  lemma SampleScore(jean: Member, c: Connection)
    requires jean.firstName == "Jean" && jean.lastName == "Martin" && jean.gender == Some(Masculine)
    ensures var sc := CalculateFamilyScore([jean], "Jean Martin", "", Some(c));
      sc.score == 70 && RequestStatus(sc.score) == Approved
      && sc.reasons == [FatherReason(jean), ConnectionReason(c)]
  {
    var name := Lower(FullName(jean));
    assert FullName(jean) == "Jean Martin";
    assert OccursAt(name, Lower("Jean Martin"), 0);
    assert ParentMatches([jean][0], "Jean Martin", Masculine);
    assert !Blank("Jean Martin") by {
      assert !IsJsWhitespace("Jean Martin"[0]);
    }
  }

  /** The registration form's state and its handlers. */
  class RegistrationForm {
    const who: Applicant
    var fatherName: string
    var motherName: string
    var searchTerm: string
    var selectedConnection: Option<Connection>
    var relationshipType: string
    var searchResults: seq<Member>

    constructor (who: Applicant)
      ensures this.who == who
      ensures fatherName == "" && motherName == "" && searchTerm == "" && relationshipType == ""
      ensures selectedConnection == None && searchResults == []
    {
      this.who := who;
      fatherName, motherName, searchTerm, relationshipType := "", "", "", "";
      selectedConnection, searchResults := None, [];
    }

    /** Searches the loaded directory for the typed term. */
    method SearchFamilyMembers(members: seq<Member>)
      modifies this`searchResults
      ensures searchResults == SearchResults(members, searchTerm, old(searchResults))
    {
      if Blank(searchTerm) {
        return;
      }
      searchResults := MatchingMembers(members, searchTerm);
    }

    /** Picks a search result and the relationship label clicked next to it. */
    method SelectConnection(member: Member, relationship: string)
      modifies this`selectedConnection, this`relationshipType
      ensures selectedConnection == Some(Connection(member.id, relationship, FullName(member)))
      ensures relationshipType == relationship
    {
      selectedConnection := Some(Connection(member.id, relationship, FullName(member)));
      relationshipType := relationship;
    }

    /** Files the request against `db`; `answer` and `insertError` are what
        the authentication service and the store reply. */
    method SubmitFamilyRequest(db: Store, members: seq<Member>, answer: SignUpAnswer,
                               insertError: Option<string>, now: Timestamp) returns (out: SubmitOutcome)
      requires db.Valid()
      modifies db
      ensures db.Valid()
      ensures (db.State(), out) == Submission(old(db.State()), who, fatherName, motherName, selectedConnection,
                                              members, answer, insertError, now)
    {
      if selectedConnection.None? {
        return ConnectionRequired;
      }
      var sc := CalculateFamilyScore(members, fatherName, motherName, selectedConnection);
      match answer {
        case SignUpError(msg) =>
          return Failed(msg);
        case NoUserReturned =>
          return NoAccount;
        case UserCreated =>
      }
      var user := db.CreateAccount(NewAccount(who));
      if insertError.Some? {
        return Failed(insertError.value);
      }
      var _ := db.InsertRequest(RequestRow(who, fatherName, motherName, selectedConnection.value, sc, user, now));
      out := Submitted(RequestStatus(sc.score), sc.score);
    }
  }
}
