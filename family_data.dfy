/**
 * The family-data hook: the media rows as the gallery sees them, the
 * assembly of members, edges and media into linked nodes, and the two
 * writes it offers (adding a member, adding an edge).
 *
 * The assembled nodes refer to one another: a node's `parents` and
 * `children` hold the shared node objects of other members. The model keeps
 * the nodes in a map keyed by member id and lets the lists hold those keys,
 * so two lists that mention the same member share its one node.
 */
module FamilyData {
  import opened Optional
  import opened Database

  const ParentType: string := "parent"
  const ChildType: string := "enfant"

  datatype MediaKind = Image | Video

  /** A media row with the two fields the gallery reads added. */
  datatype FetchedMedia = FetchedMedia(row: MediaRow, kind: MediaKind, url: string)

  /** `{...item, type: item.media_type === 'photo' ? 'image' : 'video', url: item.media_url}` */
  function ToFetched(row: MediaRow): (m: FetchedMedia)
    ensures m.row == row && m.url == row.mediaUrl
    ensures m.kind == Image <==> row.mediaType == "photo"
    ensures m.kind == Video <==> row.mediaType != "photo"
  {
    FetchedMedia(row, if row.mediaType == "photo" then Image else Video, row.mediaUrl)
  }

  /** The fetched media, in the order the query returned the rows. */
  function FetchMedia(rows: seq<MediaRow>): (r: seq<FetchedMedia>)
    ensures |r| == |rows|
    ensures forall i :: 0 <= i < |rows| ==> r[i] == ToFetched(rows[i])
  {
    seq(|rows|, i requires 0 <= i < |rows| => ToFetched(rows[i]))
  }

  /** A member with the lists the assembly fills: the ids of its parents'
      and children's nodes, and its media. */
  datatype TreeNode = TreeNode(member: Member, parents: seq<Id>, children: seq<Id>, media: seq<FetchedMedia>)

  /** The nodes by member id, and the id of the node returned as the root. */
  datatype FamilyTree = FamilyTree(root: Id, nodes: map<Id, TreeNode>)

  /** The map built from the member list: one empty node per id; a later
      member with an id already seen replaces the earlier node. */
  function InitialNodes(members: seq<Member>): map<Id, TreeNode>
  {
    if members == [] then map[]
    else
      var last := members[|members| - 1];
      InitialNodes(members[..|members| - 1])[last.id := TreeNode(last, [], [], [])]
  }

  /** The media of member `k`, in media order. */
  function MediaOf(media: seq<FetchedMedia>, k: Id): seq<FetchedMedia>
  {
    if media == [] then []
    else
      var last := media[|media| - 1];
      MediaOf(media[..|media| - 1], k) + (if last.row.familyMemberId == Some(k) then [last] else [])
  }

  /** Edge `e` goes from `k` to a known member with label `kind`, and `k` is known. */
  predicate Attaches(e: Relationship, keys: set<Id>, k: Id, kind: string)
  {
    k in keys && e.personId == Some(k) && e.relatedPersonId.Some? && e.relatedPersonId.value in keys
    && e.relationshipType == kind
  }

  /** The ids `k` is linked to by edges labelled `kind`, in edge order. */
  function Linked(rels: seq<Relationship>, keys: set<Id>, k: Id, kind: string): seq<Id>
  {
    if rels == [] then []
    else
      var last := rels[|rels| - 1];
      Linked(rels[..|rels| - 1], keys, k, kind)
      + (if Attaches(last, keys, k, kind) then [last.relatedPersonId.value] else [])
  }

  /** What the assembly produces: nothing when there are no members or no
      edges; otherwise a node per member id whose `parents` follow the
      `parent` edges out of it, whose `children` follow the `enfant` edges
      out of it, whose media are the items it owns, and the first member's
      node as root. */
  function TreeOf(members: seq<Member>, rels: seq<Relationship>, media: seq<FetchedMedia>): (r: Option<FamilyTree>)
    ensures r.None? <==> |members| == 0 || |rels| == 0
    ensures r.Some? ==> r.value.root == members[0].id
  {
    if |members| == 0 || |rels| == 0 then None
    else
      var init := InitialNodes(members);
      Some(FamilyTree(members[0].id,
        map k | k in init.Keys ::
          TreeNode(init[k].member, Linked(rels, init.Keys, k, ParentType), Linked(rels, init.Keys, k, ChildType),
                   MediaOf(media, k))))
  }

  /** The first pass of `buildFamilyTree`: an empty node per member. */
  method EmptyNodes(members: seq<Member>) returns (nodes: map<Id, TreeNode>)
    ensures nodes == InitialNodes(members)
    ensures forall k :: k in nodes ==> nodes[k] == TreeNode(nodes[k].member, [], [], [])
  {
    nodes := map[];
    var i := 0;
    while i < |members|
      invariant 0 <= i <= |members|
      invariant nodes == InitialNodes(members[..i])
      invariant forall k :: k in nodes ==> nodes[k] == TreeNode(nodes[k].member, [], [], [])
    {
      var m := members[i];
      nodes := nodes[m.id := TreeNode(m, [], [], [])];
      i := i + 1;
      assert members[..i][..i - 1] == members[..i - 1];
    }
    assert members[..|members|] == members;
  }

  /** The second pass: each media item is appended to its owner's node;
      items whose owner has no node are dropped. */
  method AttachMedia(nodes: map<Id, TreeNode>, media: seq<FetchedMedia>) returns (out: map<Id, TreeNode>)
    ensures out.Keys == nodes.Keys
    ensures forall k :: k in out ==> out[k] == nodes[k].(media := nodes[k].media + MediaOf(media, k))
  {
    out := nodes;
    var j := 0;
    while j < |media|
      invariant 0 <= j <= |media|
      invariant out.Keys == nodes.Keys
      invariant forall k :: k in out ==> out[k] == nodes[k].(media := nodes[k].media + MediaOf(media[..j], k))
    {
      var item := media[j];
      if item.row.familyMemberId.Some? && item.row.familyMemberId.value in out {
        var owner := item.row.familyMemberId.value;
        out := out[owner := out[owner].(media := out[owner].media + [item])];
      }
      j := j + 1;
      assert media[..j][..j - 1] == media[..j - 1];
    }
    assert media[..|media|] == media;
  }

  /** Node `n` of member `k` once the edges `rels` are attached. */
  function WithEdges(n: TreeNode, rels: seq<Relationship>, keys: set<Id>, k: Id): TreeNode
  {
    n.(parents := n.parents + Linked(rels, keys, k, ParentType),
       children := n.children + Linked(rels, keys, k, ChildType))
  }

  /** Attaching one more edge appends its target to one list of its source
      at most. */
  lemma WithEdgesStep(n: TreeNode, rels: seq<Relationship>, r: nat, keys: set<Id>, k: Id)
    requires r < |rels|
    ensures var prev := WithEdges(n, rels[..r], keys, k);
      WithEdges(n, rels[..r + 1], keys, k) ==
        if Attaches(rels[r], keys, k, ParentType) then prev.(parents := prev.parents + [rels[r].relatedPersonId.value])
        else if Attaches(rels[r], keys, k, ChildType) then prev.(children := prev.children + [rels[r].relatedPersonId.value])
        else prev
  {
    assert rels[..r + 1][..r] == rels[..r];
  }

  /** The third pass: the target of each edge whose two ends have nodes is
      appended to the source's parents for a `parent` edge, to its children
      for an `enfant` edge; other edges are dropped. */
  method AttachEdges(nodes: map<Id, TreeNode>, rels: seq<Relationship>) returns (out: map<Id, TreeNode>)
    ensures out.Keys == nodes.Keys
    ensures forall k :: k in out ==> out[k] == WithEdges(nodes[k], rels, nodes.Keys, k)
  {
    out := nodes;
    var r := 0;
    assert rels[..0] == [];
    while r < |rels|
      invariant 0 <= r <= |rels|
      invariant out.Keys == nodes.Keys
      invariant forall k :: k in out ==> out[k] == WithEdges(nodes[k], rels[..r], nodes.Keys, k)
    {
      var e := rels[r];
      if e.personId.Some? && e.personId.value in out && e.relatedPersonId.Some? && e.relatedPersonId.value in out {
        var person := e.personId.value;
        if e.relationshipType == ParentType {
          out := out[person := out[person].(parents := out[person].parents + [e.relatedPersonId.value])];
        } else if e.relationshipType == ChildType {
          out := out[person := out[person].(children := out[person].children + [e.relatedPersonId.value])];
        }
      }
      forall k | k in out
        ensures out[k] == WithEdges(nodes[k], rels[..r + 1], nodes.Keys, k)
      {
        WithEdgesStep(nodes[k], rels, r, nodes.Keys, k);
      }
      r := r + 1;
    }
    assert rels[..|rels|] == rels;
  }

  /** `buildFamilyTree`: the three passes, and the first member's node as root. */
  method BuildFamilyTree(members: seq<Member>, rels: seq<Relationship>, media: seq<FetchedMedia>)
    returns (tree: Option<FamilyTree>)
    ensures tree == TreeOf(members, rels, media)
  {
    if |members| == 0 || |rels| == 0 {
      return None;
    }
    var empty := EmptyNodes(members);
    var withMedia := AttachMedia(empty, media);
    var nodes := AttachEdges(withMedia, rels);
    ghost var spec := TreeOf(members, rels, media).value.nodes;
    assert nodes.Keys == spec.Keys;
    forall k | k in nodes
      ensures nodes[k] == spec[k]
    {
      assert empty[k] == TreeNode(empty[k].member, [], [], []);
      assert withMedia[k] == TreeNode(empty[k].member, [], [], MediaOf(media, k));
    }
    assert nodes == spec;
    tree := Some(FamilyTree(members[0].id, nodes));
  }

  /** The map has a node for exactly the member ids. */
  lemma {:induction false} InitialNodesKeys(members: seq<Member>)
    ensures forall k :: k in InitialNodes(members) <==> exists i :: 0 <= i < |members| && members[i].id == k
  {
    if members != [] {
      var n := |members| - 1;
      var init := members[..n];
      InitialNodesKeys(init);
      assert InitialNodes(members) == InitialNodes(init)[members[n].id := TreeNode(members[n], [], [], [])];
      forall k | k in InitialNodes(members)
        ensures exists i :: 0 <= i < |members| && members[i].id == k
      {
        if k != members[n].id {
          var i :| 0 <= i < |init| && init[i].id == k;
          assert members[i] == init[i];
        }
      }
      forall i | 0 <= i < n
        ensures members[i].id in InitialNodes(members)
      {
        assert init[i] == members[i];
      }
    }
  }

  /** The node of an id holds the last member with that id. */
  lemma {:induction false} InitialNodesLast(members: seq<Member>)
    ensures forall i :: 0 <= i < |members| && (forall j :: i < j < |members| ==> members[j].id != members[i].id) ==>
              members[i].id in InitialNodes(members)
              && InitialNodes(members)[members[i].id] == TreeNode(members[i], [], [], [])
  {
    if members != [] {
      var n := |members| - 1;
      var init := members[..n];
      InitialNodesLast(init);
      assert InitialNodes(members) == InitialNodes(init)[members[n].id := TreeNode(members[n], [], [], [])];
      forall i | 0 <= i < n && (forall j :: i < j < |members| ==> members[j].id != members[i].id)
        ensures members[i].id in InitialNodes(members)
        ensures InitialNodes(members)[members[i].id] == TreeNode(members[i], [], [], [])
      {
        assert init[i] == members[i];
        assert forall j :: i < j < |init| ==> init[j] == members[j];
      }
    }
  }

  /** With distinct ids, the root's node holds the first member, and every
      member has its own node. */
  lemma TreeRoot(members: seq<Member>, rels: seq<Relationship>, media: seq<FetchedMedia>)
    requires |members| > 0 && |rels| > 0
    requires forall i, j :: 0 <= i < j < |members| ==> members[i].id != members[j].id
    ensures var t := TreeOf(members, rels, media).value;
      && t.root in t.nodes && t.nodes[t.root].member == members[0]
      && forall i :: 0 <= i < |members| ==> members[i].id in t.nodes && t.nodes[members[i].id].member == members[i]
  {
    InitialNodesKeys(members);
    InitialNodesLast(members);
  }

  /** A media item sits in the node of the member it names, and in no other;
      items naming no member, or an unknown one, are in no node. */
  lemma {:induction false} MediaPlacement(media: seq<FetchedMedia>, k: Id)
    ensures forall x :: x in MediaOf(media, k) <==> x in media && x.row.familyMemberId == Some(k)
  {
    if media != [] {
      var init := media[..|media| - 1];
      MediaPlacement(init, k);
      assert media == init + [media[|media| - 1]];
    }
  }

  /** Media keep their order: the items of two consecutive batches are
      those of the first followed by those of the second. */
  lemma {:induction false} MediaOrder(a: seq<FetchedMedia>, b: seq<FetchedMedia>, k: Id)
    ensures MediaOf(a + b, k) == MediaOf(a, k) + MediaOf(b, k)
    decreases |b|
  {
    if b == [] {
      assert a + b == a;
    } else {
      MediaOrder(a, b[..|b| - 1], k);
      assert (a + b)[..|a + b| - 1] == a + b[..|b| - 1];
    }
  }

  /** `x` is among the ids `k` is linked to by `kind` exactly when both are
      known members and some edge labelled `kind` goes from `k` to `x`. */
  lemma {:induction false} LinkedMembers(rels: seq<Relationship>, keys: set<Id>, k: Id, kind: string)
    ensures forall x :: x in Linked(rels, keys, k, kind) <==>
      k in keys && x in keys
      && exists e :: e in rels && e.personId == Some(k) && e.relatedPersonId == Some(x) && e.relationshipType == kind
  {
    if rels != [] {
      var init := rels[..|rels| - 1];
      LinkedMembers(init, keys, k, kind);
      assert rels == init + [rels[|rels| - 1]];
    }
  }

  /** An edge labelled neither `parent` nor `enfant`, or one with an unknown
      end, adds nothing to any node. */
  lemma IgnoredEdge(rels: seq<Relationship>, e: Relationship, keys: set<Id>, k: Id)
    requires (e.relationshipType != ParentType && e.relationshipType != ChildType)
             || e.personId.None? || e.personId.value !in keys
             || e.relatedPersonId.None? || e.relatedPersonId.value !in keys
    ensures Linked(rels + [e], keys, k, ParentType) == Linked(rels, keys, k, ParentType)
    ensures Linked(rels + [e], keys, k, ChildType) == Linked(rels, keys, k, ChildType)
  {
    assert (rels + [e])[..|rels|] == rels;
  }

  /** Edges are not mirrored: a `parent` edge never adds to a `children`
      list, neither the source's nor the target's. */
  lemma ParentEdgeNotMirrored(rels: seq<Relationship>, e: Relationship, keys: set<Id>, k: Id)
    requires e.relationshipType == ParentType
    ensures Linked(rels + [e], keys, k, ChildType) == Linked(rels, keys, k, ChildType)
  {
    assert (rels + [e])[..|rels|] == rels;
  }

  /** Two members and one `parent` edge from the first to the second: the
      first lists the second among its parents, and the second has no
      children. */
  lemma SingleParentEdge(a: Member, b: Member, e: Relationship)
    requires a.id != b.id
    requires e.personId == Some(a.id) && e.relatedPersonId == Some(b.id) && e.relationshipType == ParentType
    ensures var t := TreeOf([a, b], [e], []).value;
      && t.nodes.Keys == {a.id, b.id}
      && t.nodes[a.id].parents == [b.id] && t.nodes[a.id].children == []
      && t.nodes[b.id].parents == [] && t.nodes[b.id].children == []
  {
    assert [a, b][..1] == [a] && [a][..0] == [];
    var init := InitialNodes([a, b]);
    assert InitialNodes([a]) == map[a.id := TreeNode(a, [], [], [])];
    assert init == map[a.id := TreeNode(a, [], [], []), b.id := TreeNode(b, [], [], [])];
    assert init.Keys == {a.id, b.id};
    assert [e][..0] == [];
    assert Attaches(e, init.Keys, a.id, ParentType);
    assert Linked([e], init.Keys, a.id, ParentType) == [b.id];
    assert Linked([e], init.Keys, a.id, ChildType) == [];
    assert Linked([e], init.Keys, b.id, ParentType) == [];
    assert Linked([e], init.Keys, b.id, ChildType) == [];
  }

  /** `Partial<FamilyMember>`: the fields a caller may give. */
  datatype MemberInput = MemberInput(
    firstName: Option<string>,
    lastName: Option<string>,
    birthDate: Option<string>,
    deathDate: Option<string>,
    birthPlace: Option<string>,
    currentLocation: Option<string>,
    occupation: Option<string>,
    phoneNumber: Option<string>,
    email: Option<string>,
    bio: Option<string>,
    profileImageUrl: Option<string>,
    gender: Option<string>)

  datatype AddOutcome<T> = NotSignedIn | NamesRequired | StoreError(message: string) | Added(row: T)

  /** The cleaned row: both names, every optional field with empty turned
      to null, and the signed-in user as owner. */
  function CleanedMember(input: MemberInput, user: Id): Member
    requires Truthy(input.firstName) && Truthy(input.lastName)
  {
    Member(0, input.firstName.value, input.lastName.value,
           OrNull(input.birthDate), OrNull(input.deathDate), OrNull(input.birthPlace),
           OrNull(input.currentLocation), OrNull(input.occupation), OrNull(input.phoneNumber),
           OrNull(input.email), OrNull(input.bio), OrNull(input.profileImageUrl), OrNull(input.gender),
           None, Some(user))
  }

  /** Adding a member: refused before any write without a signed-in user
      or without both names; otherwise one cleaned row is inserted unless
      the store reports an error. */
  function AddMemberEffect(t: Tables, user: Option<Id>, input: MemberInput, insertError: Option<string>)
    : (r: (Tables, AddOutcome<Member>))
    ensures user.None? ==> r == (t, NotSignedIn)
    ensures user.Some? && !(Truthy(input.firstName) && Truthy(input.lastName)) ==> r == (t, NamesRequired)
    ensures insertError.Some? ==> r.0 == t && !r.1.Added?
    ensures r.1.Added? <==> user.Some? && Truthy(input.firstName) && Truthy(input.lastName) && insertError.None?
    ensures r.1.Added? ==>
      && r.0.members == t.members + [r.1.row]
      && r.0.requests == t.requests && r.0.relationships == t.relationships && r.0.profiles == t.profiles
      && r.0.accounts == t.accounts && r.0.nextId == t.nextId + 1
      && r.1.row.id == t.nextId
      && Some(r.1.row.firstName) == input.firstName && Some(r.1.row.lastName) == input.lastName
      && r.1.row.addedBy == user
      && r.1.row.verified.None?
      && r.1.row.birthDate == OrNull(input.birthDate) && r.1.row.deathDate == OrNull(input.deathDate)
      && r.1.row.birthPlace == OrNull(input.birthPlace) && r.1.row.currentLocation == OrNull(input.currentLocation)
      && r.1.row.occupation == OrNull(input.occupation) && r.1.row.phoneNumber == OrNull(input.phoneNumber)
      && r.1.row.email == OrNull(input.email) && r.1.row.bio == OrNull(input.bio)
      && r.1.row.profileImageUrl == OrNull(input.profileImageUrl) && r.1.row.gender == OrNull(input.gender)
  {
    if user.None? then (t, NotSignedIn)
    else if !(Truthy(input.firstName) && Truthy(input.lastName)) then (t, NamesRequired)
    else if insertError.Some? then (t, StoreError(insertError.value))
    else
      var row := CleanedMember(input, user.value).(id := t.nextId);
      (AddMember(t, row), Added(row))
  }

  /** `addFamilyMember`. */
  method AddFamilyMember(db: Store, user: Option<Id>, input: MemberInput, insertError: Option<string>)
    returns (out: AddOutcome<Member>)
    requires db.Valid()
    modifies db
    ensures db.Valid()
    ensures (db.State(), out) == AddMemberEffect(old(db.State()), user, input, insertError)
  {
    if user.None? {
      return NotSignedIn;
    }
    if !(Truthy(input.firstName) && Truthy(input.lastName)) {
      return NamesRequired;
    }
    var cleaned := CleanedMember(input, user.value);
    if insertError.Some? {
      return StoreError(insertError.value);
    }
    var row := db.InsertMember(cleaned);
    out := Added(row);
  }

  /** Adding an edge: refused without a signed-in user; otherwise one edge
      owned by the user is inserted unless the store reports an error. */
  function AddRelationshipEffect(t: Tables, user: Option<Id>, person: Id, related: Id, kind: string,
                                 insertError: Option<string>): (r: (Tables, AddOutcome<Relationship>))
    ensures user.None? ==> r == (t, NotSignedIn)
    ensures insertError.Some? ==> r.0 == t && !r.1.Added?
    ensures r.1.Added? <==> user.Some? && insertError.None?
    ensures r.1.Added? ==>
      && r.0.relationships == t.relationships + [r.1.row]
      && r.0.members == t.members && r.0.requests == t.requests
      && r.0.profiles == t.profiles && r.0.accounts == t.accounts
      && r.0.nextId == t.nextId + 1
      && r.1.row == Relationship(t.nextId, Some(person), Some(related), kind, user)
  {
    if user.None? then (t, NotSignedIn)
    else if insertError.Some? then (t, StoreError(insertError.value))
    else
      var row := Relationship(t.nextId, Some(person), Some(related), kind, user);
      (AddRelationship(t, row), Added(row))
  }

  /** `addRelationship`. */
  method AddRelationshipRow(db: Store, user: Option<Id>, person: Id, related: Id, kind: string,
                            insertError: Option<string>) returns (out: AddOutcome<Relationship>)
    requires db.Valid()
    modifies db
    ensures db.Valid()
    ensures (db.State(), out) == AddRelationshipEffect(old(db.State()), user, person, related, kind, insertError)
  {
    if user.None? {
      return NotSignedIn;
    }
    if insertError.Some? {
      return StoreError(insertError.value);
    }
    var row := db.InsertRelationship(Relationship(0, Some(person), Some(related), kind, user));
    out := Added(row);
  }
}
