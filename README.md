# Family tree with kinship validation — a Dafny model

The application is a family-tree site over a hosted database. A newcomer
registers by naming their father and mother and picking the existing member
they are related to; the site scores that claim and files a
`family_validation` request, approved on the spot at a score of 50 or more.
Administrators approve or reject the other requests; an approval turns the
candidate into a verified member, links them to the claimed relative and
grants the requester's profile. The tree view assembles members, labelled
edges and media into linked nodes; the timeline walks a person tree into
birth, death and media events ordered by date; avatars show a name's
initials.

The model covers that decision logic, module by module:

- `Optional`, `Strings`, `Sorting`: the JavaScript notions the logic depends
  on — `null` and `||`, `trim()` emptiness, ASCII `toLowerCase`/`toUpperCase`,
  `includes`, `split`/`join`/`reverse`, and a stable sort by an integer key.
- `Database`: the rows of `family_members`, `family_media`,
  `family_relationships`, `family_requests` and `user_profiles`, the
  authentication accounts, and a `Store` class whose methods are the inserts
  and updates the application issues. Row ids come from one counter.
- `Registration` (`FamilyRegistrationForm.tsx`): the member search, the
  connection choice, the additive score, and the submission. Pure rules are
  functions; the form is a class whose handlers change its fields and the store.
- `Review` (`FamilyRequestsAdmin.tsx`): the list order, the status
  classification, and the approve/reject handler as a sequence of store writes
  that stops at the first one the store rejects.
- `FamilyData` (`useFamilyData.tsx`): the media mapping, the tree assembly
  (three passes over a map of nodes) and the two inserts.
- `Timeline` (`Timeline.tsx`): the pre-order walk, the date rewrite and the
  final ordering, plus the sample family of `src/data/familyData.ts`.
- `Initials` (`PersonNode.tsx`): `getInitials`, the same expression used
  inline at `src/components/Timeline.tsx:149`, `src/components/MediaGallery.tsx:50`
  and `src/pages/Index.tsx:87`.

Every state-changing handler is a method proved equal to a pure function of
the old state and its inputs. The replies of the store and the authentication
service are parameters: a sign-up answer, an optional insert error, or a
`Fault` naming the write that fails. The properties are proved about those
functions.

## Model

| member | source | states |
|---|---|---|
| Optional.OrNull | src/hooks/useFamilyData.tsx:133-144 | the `or null` idiom: null exactly when the value is absent or empty, the value itself otherwise |
| Strings.Lower | src/components/FamilyRegistrationForm.tsx:58 | same length, every character case-folded (ASCII) |
| Strings.Includes | src/components/FamilyRegistrationForm.tsx:58 | true exactly when the needle occurs at some position of the haystack |
| Strings.Split | src/components/PersonNode.tsx:39 | one piece more than there are separators, and no piece contains the separator |
| Strings.JoinSplit | src/components/Timeline.tsx:24 | joining the pieces of a split with the separator gives the string back |
| Strings.SplitAt | src/components/Timeline.tsx:24 | a separator-free prefix followed by the separator becomes its own first piece |
| Strings.SplitWhole | src/components/Timeline.tsx:24 | a string without the separator splits into itself alone |
| Strings.Reverse | src/components/Timeline.tsx:24 | same length, element i is element n-1-i of the input |
| Strings.Upper | src/components/PersonNode.tsx:39 | same length, every character upper-cased (ASCII) |
| Strings.JoinLength | src/components/PersonNode.tsx:39 | a join is as long as its pieces plus one separator between each two neighbours |
| Strings.TotalLengthReverse | src/components/Timeline.tsx:24 | reversing the pieces keeps their summed length |
| Strings.Trim | src/components/FamilyRegistrationForm.tsx:46 | the result is the slice of the input left between a white-space-only prefix and a white-space-only suffix, and neither of its ends is white space |
| Strings.TrimStart | src/components/FamilyRegistrationForm.tsx:46 | the scan stops at the first character that is not white space, with only white space before it |
| Strings.TrimEnd | src/components/FamilyRegistrationForm.tsx:46 | the backward scan stops after the last character that is not white space, with only white space after it |
| Strings.BlankTrim | src/components/FamilyRegistrationForm.tsx:94 | a name is blank exactly when trimming leaves nothing, the test `!s.trim()` and `s.trim()` make |
| Sorting.InsertBy | src/components/Timeline.tsx:69 | inserting into a sorted list keeps it sorted and adds exactly the element |
| Sorting.SortBy | src/components/Timeline.tsx:69 | the result is ordered by non-decreasing key and is a permutation of the input |
| Database.SetReview | src/components/FamilyRequestsAdmin.tsx:42-49 | every row with the id gets the status, the comment and the review time with its other columns kept; every other row is unchanged; the row count is kept |
| Database.LinkProfile | src/components/FamilyRequestsAdmin.tsx:90-96 | the requester's profile rows get the member id and `can_add_members` set; every other row is unchanged; the row count is kept |
| Database.Store.CreateAccount | src/components/FamilyRegistrationForm.tsx:141-152 | one account appended with a fresh id, the id returned |
| Database.Store.InsertRequest | src/components/FamilyRegistrationForm.tsx:171-179 | one request appended with a fresh id |
| Database.Store.InsertMember | src/hooks/useFamilyData.tsx:148-152 | one member appended with a fresh id, the stored row returned |
| Database.Store.InsertRelationship | src/components/FamilyRequestsAdmin.tsx:77-84 | one edge appended with a fresh id, the stored row returned |
| Database.Store.UpdateReview | src/components/FamilyRequestsAdmin.tsx:42-49 | the rows with the id get status, comment and review time; nothing else changes |
| Database.Store.UpdateProfile | src/components/FamilyRequestsAdmin.tsx:90-96 | the requester's profile points at the member and may add members; nothing else changes |
| Registration.FindParent | src/components/FamilyRegistrationForm.tsx:95-98 | none exactly when no member has the gender tag and a matching name; otherwise the first such member |
| Registration.CalculateFamilyScore | src/components/FamilyRegistrationForm.tsx:89-123 | score = 30·[father found] + 30·[mother found] + 40·[connection chosen], blank names found nothing, so the score is one of 0, 30, 40, 60, 70, 100 |
| Registration.ScoreReasons | src/components/FamilyRegistrationForm.tsx:99-120 | one reason per passed check in the order father, mother, connection; the parent reasons name the first match; the connection reason contains the member name and the label |
| Registration.ConnectionReasonNames | src/components/FamilyRegistrationForm.tsx:119 | the connection reason contains the chosen member's name and the relationship label |
| Registration.SampleScore | src/components/FamilyRegistrationForm.tsx:89-123 | a male "Jean Martin" named as father, an empty mother's name and a connection give 70 and approval |
| Registration.SearchResults | src/components/FamilyRegistrationForm.tsx:45-59 | a blank term leaves the results unchanged; otherwise exactly the members whose full name contains the term, ignoring case |
| Registration.MatchingMembersIn | src/components/FamilyRegistrationForm.tsx:57-59 | a member is among the matches exactly when it is in the directory and its name matches |
| Registration.MatchingMembersOrder | src/components/FamilyRegistrationForm.tsx:57-59 | the filter keeps directory order (it distributes over concatenation) |
| Registration.RequestStatus | src/components/FamilyRegistrationForm.tsx:178 | `approved` exactly when the score is at least 50, `pending` otherwise |
| Registration.Submission | src/components/FamilyRegistrationForm.tsx:125-206 | no connection: nothing happens; sign-up error or no user: store unchanged; insert error: the new account (the applicant's e-mail and names, next id) stays and the id counter moves by one, with no request and every other table unchanged |
| Registration.SubmitFilesOneRequest | src/components/FamilyRegistrationForm.tsx:154-181 | a request is filed exactly when connection, sign-up and insert succeed; it is a `family_validation` request by the new account about the chosen member, with the score and reasons that decided its status |
| Registration.SubmittedStatus | src/components/FamilyRegistrationForm.tsx:117-178 | a filed score is 40, 70 or 100, approved exactly when a parent was found |
| Registration.RegistrationForm.constructor | src/components/FamilyRegistrationForm.tsx:33-38 | every field starts empty and no connection is chosen |
| Registration.RegistrationForm.SearchFamilyMembers | src/components/FamilyRegistrationForm.tsx:45-78 | the results become the search of the current term, or stay as they were for a blank term |
| Registration.RegistrationForm.SelectConnection | src/components/FamilyRegistrationForm.tsx:80-87 | the connection records the member's id, the label and the `"first last"` name; the label is kept |
| Registration.RegistrationForm.SubmitFamilyRequest | src/components/FamilyRegistrationForm.tsx:125-206 | the store and the outcome are those of the submission on the form's fields |
| Review.ListRequests | src/components/FamilyRequestsAdmin.tsx:25-36 | newest first by `created_at`, and a permutation of the table |
| Review.Classify | src/components/FamilyRequestsAdmin.tsx:121-141 | `approved` and `rejected` are their own classes; every other status, null included, is pending |
| Review.NewStatus | src/components/FamilyRequestsAdmin.tsx:45 | the status an action writes is classified as that action: approve shows approved, reject shows rejected |
| Review.StatusIcon | src/components/FamilyRequestsAdmin.tsx:121-130 | the clock is shown exactly for pending-looking statuses |
| Review.StatusColor | src/components/FamilyRequestsAdmin.tsx:132-141 | yellow exactly for pending-looking statuses |
| Review.FindRequest | src/components/FamilyRequestsAdmin.tsx:55 | a found request is the first loaded request with the id; none means no loaded request has it |
| Review.Decide | src/components/FamilyRequestsAdmin.tsx:38-119 | a failed status write changes nothing; otherwise the rows with the id get the action's status, the comment or null, and the review time; rejecting writes nothing else |
| Review.ApproveUnknownRequest | src/components/FamilyRequestsAdmin.tsx:55-56 | approving an id missing from the loaded list writes only the status |
| Review.ApproveMaterialises | src/components/FamilyRequestsAdmin.tsx:55-99 | one new verified member with the candidate's names and e-mail, added by the requester; an edge to the claimed member exactly when there is a connection; the requester's profile points at the new member and may add members; accounts unchanged; the id counter moves by one per row added |
| Review.ApprovePartialFailure | src/components/FamilyRequestsAdmin.tsx:51-98 | a failing member, edge or profile write stops the handler; the earlier writes stay exactly: the new status, then the candidate member with the next id, then the connection edge when there is a connection; later tables and the accounts unchanged |
| Review.ApproveTwiceDuplicates | src/components/FamilyRequestsAdmin.tsx:38-100 | the handler ignores the current status: approving twice adds two members with distinct ids |
| Review.HandleRequestAction | src/components/FamilyRequestsAdmin.tsx:38-119 | the store and the outcome are those of `Decide` on the old store |
| FamilyData.ToFetched | src/hooks/useFamilyData.tsx:84-88 | `image` exactly for `photo`, `video` otherwise, with the url of the row |
| FamilyData.FetchMedia | src/hooks/useFamilyData.tsx:84-88 | one fetched item per row, item i being row i mapped by `ToFetched` |
| FamilyData.TreeOf | src/hooks/useFamilyData.tsx:93-121 | null exactly when there are no members or no edges; the root is the first member's id |
| FamilyData.EmptyNodes | src/hooks/useFamilyData.tsx:96 | one node per member id, all lists empty |
| FamilyData.AttachMedia | src/hooks/useFamilyData.tsx:99-103 | every node's media grow by the items naming it, in media order; no node is added |
| FamilyData.WithEdgesStep | src/hooks/useFamilyData.tsx:106-117 | one more edge appends its target to the parents or children of its source, or changes nothing |
| FamilyData.AttachEdges | src/hooks/useFamilyData.tsx:106-117 | every node's parents and children grow by the targets of its `parent` and `enfant` edges |
| FamilyData.BuildFamilyTree | src/hooks/useFamilyData.tsx:93-121 | the three passes produce the tree `TreeOf` describes |
| FamilyData.InitialNodesKeys | src/hooks/useFamilyData.tsx:96 | the map has a node for exactly the member ids |
| FamilyData.InitialNodesLast | src/hooks/useFamilyData.tsx:96 | the node of an id holds the last member with that id (a later duplicate replaces the earlier one) |
| FamilyData.TreeRoot | src/hooks/useFamilyData.tsx:120 | with distinct ids the root node holds the first member and every member has its node |
| FamilyData.MediaPlacement | src/hooks/useFamilyData.tsx:99-103 | an item is in a node's media exactly when it names that member |
| FamilyData.MediaOrder | src/hooks/useFamilyData.tsx:99-103 | media keep their order across batches |
| FamilyData.LinkedMembers | src/hooks/useFamilyData.tsx:106-117 | x is in k's list for a label exactly when both are members and an edge with that label goes from k to x |
| FamilyData.IgnoredEdge | src/hooks/useFamilyData.tsx:106-117 | an edge with another label or an unknown end changes no list |
| FamilyData.ParentEdgeNotMirrored | src/hooks/useFamilyData.tsx:111-113 | a `parent` edge never changes a `children` list |
| FamilyData.SingleParentEdge | src/hooks/useFamilyData.tsx:106-117 | with one `parent` edge (A,B), A's parents are [B] and B has no children |
| FamilyData.AddMemberEffect | src/hooks/useFamilyData.tsx:123-156 | refused without a user or without both names, before any write; otherwise one row with both names, every optional field empty-or-absent turned to null, added by the user, unless the store fails |
| FamilyData.AddFamilyMember | src/hooks/useFamilyData.tsx:123-156 | the store and the outcome are those of `AddMemberEffect` |
| FamilyData.AddRelationshipEffect | src/hooks/useFamilyData.tsx:158-174 | refused without a user; otherwise one edge with the given ends and label, added by the user, unless the store fails |
| FamilyData.AddRelationshipRow | src/hooks/useFamilyData.tsx:158-174 | the store and the outcome are those of `AddRelationshipEffect` |
| Timeline.RewriteDayMonthYear | src/components/Timeline.tsx:24 | `d/m/y` becomes `y-m-d` for separator-free parts |
| Timeline.RewriteUndelimited | src/components/Timeline.tsx:24 | a date without `/` is left as it is |
| Timeline.RewriteDateLength | src/components/Timeline.tsx:24 | the rewritten date is exactly as long as the original |
| Timeline.SampleDate | src/components/Timeline.tsx:24 | `15/03/1985` becomes `1985-03-15` |
| Timeline.PushMediaEvents | src/components/Timeline.tsx:39-51 | appends one media event per dated item, in media order |
| Timeline.PushOwnEvents | src/components/Timeline.tsx:20-51 | appends the node's own events: birth, death if dated, then the media events |
| Timeline.FlattenTree | src/components/Timeline.tsx:19-67 | appends the walk's events to the given ones |
| Timeline.Flatten | src/components/Timeline.tsx:19-67 | the walk from a node has at least one event per node reached directly: itself, each parent and each child |
| Timeline.FlattenAll | src/components/Timeline.tsx:53-65 | the walks of a list of subtrees have at least one event per subtree |
| Timeline.FlattenEach | src/components/Timeline.tsx:54-64 | appends the walks of the listed persons, in order |
| Timeline.FlattenByNode | src/components/Timeline.tsx:19-67 | the walk yields each visited node's own events, in pre-order: the node, its parents' walks, its children's walks |
| Timeline.FlattenAllByNode | src/components/Timeline.tsx:54-64 | the same for a list of subtrees |
| Timeline.MediaEventsCount | src/components/Timeline.tsx:39-51 | one media event per dated item, and no birth or death among them |
| Timeline.OwnEventsCount | src/components/Timeline.tsx:21-51 | a node gives one birth, one death exactly when its death date is set, one media event per dated item |
| Timeline.EventsOfCount | src/components/Timeline.tsx:19-67 | births, deaths and media events of a node list add up node by node |
| Timeline.TimelineCounts | src/components/Timeline.tsx:19-67 | one birth per visited node, one death per visited node with a death date, one media event per dated item |
| Timeline.KindsCover | src/components/Timeline.tsx:10-16 | every event is a birth, a death or a media event |
| Timeline.SampleVisitingOrder | src/data/familyData.ts:25-145 | the walk over the sample family visits Marie, Jean and his parents, Claire and her parents, then the two children |
| Timeline.SampleDeaths | src/data/familyData.ts:25-145 | three members of the sample family have a death date |
| Timeline.SampleDatedPhotos | src/data/familyData.ts:25-145 | Marie, Jean and Lucas have one dated photo each, the others none |
| Timeline.SampleMedia | src/data/familyData.ts:25-145 | three dated photos in all |
| Timeline.SampleTimeline | src/data/familyData.ts:25-145 | the sample family gives 9 births, 3 deaths and 3 media events: 15 events |
| Timeline.TimelineEvents | src/components/Timeline.tsx:69 | the events ordered by non-decreasing time, a permutation of the walk's events |
| Initials.GetInitials | src/components/PersonNode.tsx:38-40 | the initials are the upper-cased first letters of the words, where a word starts after a space |
| Initials.PiecesStartWords | src/components/PersonNode.tsx:39 | the first characters of the split pieces, joined, are the characters that follow a space or start the name |
| Initials.WordStartsShape | src/components/PersonNode.tsx:39 | no word start is a space, and there are at most one more than the spaces |
| Initials.SingleWordStarts | src/components/PersonNode.tsx:39 | a name without spaces contributes at most its first character |
| Initials.InitialsShape | src/components/PersonNode.tsx:39 | no space in the initials; at most spaces + 1 characters; empty name gives empty initials; a one-word name gives one upper-cased letter |
| Initials.WordStartsConcat | src/components/PersonNode.tsx:39 | the word starts of two consecutive parts are those of the first followed by those of the second, which starts a word only if the first ended with a space |
| Initials.SpaceThenWord | src/components/PersonNode.tsx:39 | a space followed by a single word starts exactly that word |
| Initials.TwoWordStarts | src/components/PersonNode.tsx:39 | two words separated by one space start exactly two words, the first letters of each |
| Initials.TwoWordInitials | src/components/PersonNode.tsx:38-40 | a "first last" name gives the two upper-cased first letters |
| Initials.SampleInitials | src/components/PersonNode.tsx:38-40 | the initials of "Marie Dubois" are "MD" |

## Left out

- The database and authentication clients are not called: the store is a value held by a `Store` object, and the replies of the services are parameters (`SignUpAnswer`, an insert error, a `Fault`).
- Query ordering is not modelled. The member and media queries' `order(...)` clauses are the store's business, and the model takes their results as given. The request list's order is modelled by `Review.ListRequests`.
- Equal `created_at` values are ordered in the model as the input order. The database does not promise any order for them.
- The application never inserts a profile row. Where profile rows come from (a database trigger, for example) is outside the repository. `Registration.Submission` therefore adds only the account, and an approval's profile update changes nothing when the requester has no profile row.
- Row ids are natural numbers handed out by one counter, not UUIDs. A request with a null requester is not modelled.
- `Database.Store.InsertMember`: the column defaults of `family_members` are not modelled. `FamilyData.AddMemberEffect` therefore leaves `verified` unset.
- Case folding covers the ASCII letters only (`Strings.Lower`, `Strings.Upper`). JavaScript's full Unicode mapping is out of scope.
- `Initials.GetInitials`: a name's characters are Unicode code points, whereas JavaScript's `n[0]` takes one UTF-16 code unit, so a word starting outside the Basic Multilingual Plane gives a lone surrogate in the application and the whole character in the model. `toUpperCase` is folded per character over ASCII only; JavaScript's full mapping can lengthen a string (`"ß"` becomes `"SS"`), so the length bound of `Initials.InitialsShape` holds only under the ASCII fold.
- `new Date(...)` and `getTime()` are a date library. `Timeline.TimelineEvents` takes the parse as a function from the rewritten string to an integer. Unparseable dates (NaN comparisons) are not modelled.
- `Sorting.SortBy`: the contract does not state stability, although the insertion sort is stable.
- `Timeline.FlattenTree` walks a finite, acyclic person tree, as the sample data is. A cyclic graph of nodes would make the walk in `Timeline.tsx` run forever.
- Tree nodes hold the ids of related nodes rather than the shared node objects. Aliasing is captured through the one map keyed by id.
- UI state and feedback are not modelled: the `loading`, `searching` and `processingId` flags, the toasts, `onSuccess`, cache invalidation and rendering.
- Two administrators, or a double click, acting at the same time is concurrency and is not modelled. `Review.ApproveTwiceDuplicates` covers the sequential case.
