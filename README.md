# camelot access control, modelled in Dafny

camelot is a Django photo-sharing application. Its controller layer has three
parts, and this project models all three:

- the **album controller**: album creation, the view-permission rule, album and
  photo lookups and listings, the owner/contributor-gated mutators, and the photo
  upload with its chunked copy;
- the **group controller**: friend groups, their membership, and their queries;
- the **friend controller**: friend requests, their confirmation, and the
  pending-request query.

They work over one relational store, which is modelled as the class `Store.Db`.
It holds four tables (albums, photos, groups, friendships) as sequences whose
primary key is the position. It also holds a map from file names to bytes, which
stands in for the photo directory. `Db.Valid()` is the store's invariant:

- ids match positions;
- access types are in 1..4;
- album names are unique per owner, and so are group names;
- contributor and group lists have no duplicates;
- group references are in range;
- at most one friendship record exists per unordered pair.

Every mutating method keeps this invariant and states its whole new state.

Each controller is a class with the store and the acting profile `uprofile`.
`uprofile` is an `Option<Profile>`, where `None` is an anonymous visitor. Exceptions
(`AlreadyExistsException`, `PermissionException`, the ORM's `DoesNotExist`) become
the `Result` datatype's errors `AlreadyExists`, `PermissionDenied` and `NotFound`.
Queries that only compute are functions. The loops of `return_albums` and of the
upload copy are methods with loop invariants, proved against the functions
`Albums.ViewableAmong`/`Albums.OwnedAlbums` and `Upload.Concat`.

Modules, one per file:

- `Models`: entities, constants and table invariants;
- `Store`: the store;
- `Friends`, `Groups`, `Albums`: one per controller file;
- `Format`: the photo path and its decimal formatting;
- `Upload`: the chunked copy;
- `Scenarios`: the set-ups of the permission tests, replayed through the
  controllers' contracts. The replays that escalate an album's access type
  reproduce the tests' grant table only because the model's `SetAccesstype`
  stores the new type; with `set_accesstype` as written they do not (see
  "## Findings").

The model follows the code. The exceptions are the two defects recorded under
"## Findings": there the code as written is modelled beside the corrected
behaviour, and the rest of the model (`Albums.ReturnAlbum`,
`Albums.AlbumController.ReturnAlbums`, `Albums.AlbumController.AddPhotoToAlbum`,
the escalation replays) uses the corrected behaviour. Three facts about the code,
kept as written:

- `return_photo` has no permission check (albumcontroller.py:162-166).
- `add_contributor_to_album` does not check the caller; only the friendship of
  the album's owner and the contributor is checked (albumcontroller.py:193-196).
- `add_photo_to_album` refuses a viewer who is neither owner nor contributor,
  even on a PUBLIC album (albumcontroller.py:113-117).

`are_friends` is imported from `friendcontroller` (albumcontroller.py:3,
groupcontroller.py:4), but that file's text defines no `are_friends`, so its body
is not part of this model. It is modelled as follows: a friendship record joins
the two profiles, in either direction, and its confirmed flag equals the
argument. That reading agrees with its use in `add_member`. For an anonymous
viewer the model assumes that `are_friends` answers false (no record names an
absent profile), so the ALL_FRIENDS tier denies such a viewer. This is an
assumption about the unseen body. By contrast `is_in_group` visibly reads
`profile.id`, and the model records that it raises for an absent profile.

`add` does not refuse a request to oneself, so a profile can send a request to
itself and then confirm it. The model keeps that behaviour (`Friends.SelfRequestIsOpen`).

## Model

| member | source | states |
|---|---|---|
| Albums.HasPermissionToView | camelot/controllers/albumcontroller.py:36-65 | The first matching tier decides; PUBLIC, the owner and the contributors are always granted, and only a signed-in viewer is granted anything beyond PUBLIC. Each tier is stated exactly by the lemmas PublicViewableByAll, OwnerAndContributorsView, AllFriendsTier, GroupsTier and PrivateTier |
| Albums.PublicViewableByAll | camelot/controllers/albumcontroller.py:44-45 | A PUBLIC album is viewable by every viewer, anonymous or signed in |
| Albums.OwnerAndContributorsView | camelot/controllers/albumcontroller.py:47-49 | The owner and every contributor can view the album at every access type |
| Albums.CollateOwnerAndContrib | camelot/controllers/albumcontroller.py:219-227 | The collated list has the contributors and then the owner: length is contributors + 1, the owner is last, and a profile is in it iff it is the owner or a contributor |
| Albums.AnyConfirmedFriend | camelot/controllers/albumcontroller.py:54-56 | The early-return loop answers true iff the viewer is signed in and a confirmed friend of some listed person |
| Albums.AllFriendsTier | camelot/controllers/albumcontroller.py:53-56 | Under ALL_FRIENDS, a viewer who is neither owner nor contributor is granted iff a confirmed friend of the owner or of some contributor |
| Albums.AnyGroupMember | camelot/controllers/albumcontroller.py:60-62 | The group loop answers true iff the viewer is a member of one of the listed groups |
| Albums.GroupsTier | camelot/controllers/albumcontroller.py:58-65 | Under GROUPS, a viewer who is neither owner nor contributor is granted iff a member of some attached group; friendship alone does not grant |
| Albums.PrivateTier | camelot/controllers/albumcontroller.py:64-65 | At PRIVATE, or any value outside the first three tiers, a viewer is granted iff owner or contributor |
| Albums.AnonymousSeesOnlyPublic | camelot/controllers/albumcontroller.py:36-65 | With the corrected group check, an anonymous viewer is granted iff the album is PUBLIC |
| Albums.StrangerSeesOnlyPublic | camelot/tests/test_permissions.py:238-256 | A signed-in viewer with no friendship and no group membership is granted iff the album is PUBLIC |
| Albums.FriendNotInGroupSees | camelot/tests/test_permissions.py:258-275 | A confirmed friend of the owner in none of the album's groups is granted iff the access type is PUBLIC or ALL_FRIENDS |
| Albums.FriendInGroupSees | camelot/tests/test_permissions.py:277-293 | A confirmed friend of the owner in one of the album's groups is granted at every access type but PRIVATE |
| Albums.AnyGroupMemberAsWritten | camelot/controllers/albumcontroller.py:60-62 | The group loop as written raises (None) exactly when the viewer is anonymous and at least one group is attached, since the first is_in_group call reads profile.id |
| Albums.HasPermissionToViewAsWritten | camelot/controllers/albumcontroller.py:36-65 | The check as written raises exactly for an anonymous viewer of a GROUPS album with a group attached; otherwise its answer is the corrected one (AsWrittenAgreesForProfiles, AnonymousSeesOnlyPublic) |
| Albums.AsWrittenRaisesForAnonymous | camelot/controllers/groupcontroller.py:86-93 | As written, the permission check raises, instead of denying, for an anonymous viewer of a GROUPS album with a group attached |
| Albums.AsWrittenAgreesForProfiles | camelot/controllers/albumcontroller.py:58-62 | For a signed-in viewer, the check as written and the corrected check give the same answer |
| Albums.GroupLoopAgrees | camelot/controllers/albumcontroller.py:60-62 | For a signed-in viewer, the group loop as written never raises and agrees with the corrected loop |
| Albums.ReturnAlbum | camelot/controllers/albumcontroller.py:88-102 | NotFound iff the id is absent; PermissionDenied iff present and not viewable; otherwise the stored album, which is viewable |
| Albums.ReturnPhoto | camelot/controllers/albumcontroller.py:156-166 | The stored photo when the id exists, NotFound otherwise, with no permission check |
| Albums.GetPhotosForAlbum | camelot/controllers/albumcontroller.py:144-154 | A photo is in the result iff it is stored and belongs to the album; each stored photo appears at most as often as in the table (the result is a sub-multiset of it) |
| Albums.OwnedAlbums | camelot/controllers/albumcontroller.py:77 | A filter by owner: membership iff stored and owned by the target, in table order (increasing ids kept) |
| Albums.ViewableAmong | camelot/controllers/albumcontroller.py:81-84 | A filter by permission: membership iff in the input and viewable, order kept, never longer than the input |
| Albums.AllViewableKept | camelot/controllers/albumcontroller.py:81-84 | When every album is viewable, the permission filter returns its input unchanged |
| Albums.OwnListingIsComplete | camelot/controllers/albumcontroller.py:67-86 | A profile listing its own albums gets exactly all of them |
| Albums.NewAlbumKeepsWellFormed | camelot/controllers/albumcontroller.py:22-32 | Appending an album under a name unused by its owner keeps per-owner name uniqueness and the album table invariant |
| Albums.AlbumUpdateKeepsWellFormed | camelot/controllers/albumcontroller.py:179 | Replacing one album by one with the same id, name and owner, and well-formed fields, keeps the album table invariant |
| Albums.AlbumController.CreateAlbum | camelot/controllers/albumcontroller.py:20-34 | AlreadyExists with no change when the actor owns an album of that name; otherwise exactly one new album is appended, owned by the actor, ALL_FRIENDS, with no contributors or groups; the invariant (names unique per owner) is kept |
| Albums.AlbumController.ReturnAlbums | camelot/controllers/albumcontroller.py:67-86 | The loop's result is exactly the viewable albums of the given owner (the actor by default), in table order, with increasing ids |
| Albums.AlbumController.AddPhotoToAlbum | camelot/controllers/albumcontroller.py:104-142 | Errors of return_album are passed on with no change; PermissionDenied with no change when the actor is neither owner nor contributor; otherwise one photo of that album is appended, named userphotos/user id/album id/photo id, and that file holds exactly the uploaded bytes |
| Albums.AlbumController.SetAccesstypeAsWritten | camelot/controllers/albumcontroller.py:172-182 | As written: true iff the actor owns the album and the type is in 1..4; only the caller's copy of the album gets the new type, and the store is not written |
| Albums.AlbumController.SetAccesstype | camelot/controllers/albumcontroller.py:172-182 | True iff the actor owns the album and the type is in 1..4, in which case only that album's accesstype changes; otherwise false and no change |
| Models.Insert | camelot/controllers/albumcontroller.py:195 | The many-to-many add: the result holds exactly the old elements and the new one, keeps the list free of duplicates, and is the old list when the element is already there |
| Albums.AlbumController.AddContributorToAlbum | camelot/controllers/albumcontroller.py:185-196 | True iff the album's owner and the contributor are confirmed friends, whoever the caller is; on success only that album's contributors gain exactly that profile; otherwise no change |
| Albums.AlbumController.AddGroupToAlbum | camelot/controllers/albumcontroller.py:198-214 | True iff the actor owns the group and owns or contributes to the album; on success only that album's groups gain exactly that group; otherwise no change |
| Upload.Read | camelot/controllers/albumcontroller.py:137 | fi.read(n) returns the next n bytes, or what remains when fewer are left |
| Upload.CopyInChunks | camelot/controllers/albumcontroller.py:134-140 | The destination receives exactly the uploaded bytes in order, written in non-empty chunks of at most 430 bytes, all but the last full |
| Format.Decimal | camelot/controllers/albumcontroller.py:124 | The decimal text of an id is non-empty, all digits, without a leading zero, and reads back as the id |
| Format.DecimalInjective | camelot/controllers/albumcontroller.py:124 | Distinct ids have distinct decimal texts |
| Format.SplitAtSlash | camelot/controllers/albumcontroller.py:124 | A slash-free field followed by '/' is recovered from the joined text |
| Format.PhotoPathInjective | camelot/controllers/albumcontroller.py:124 | Distinct (user id, album id, photo id) triples give distinct photo paths, so two photos never share a file |
| Groups.IsInGroup | camelot/controllers/groupcontroller.py:86-93 | Membership of the profile in the group's members; AddMember makes it true and refuses when it already holds, and the GROUPS tier (GroupsTier) is stated through it |
| Groups.OwnedGroups | camelot/controllers/groupcontroller.py:82 | A group is in the result iff it is stored and owned by the given profile; the result is a sub-multiset of the table |
| Groups.ReturnGroups | camelot/controllers/groupcontroller.py:71-84 | None iff neither the argument nor the actor is a profile; otherwise exactly the groups owned by the argument, or by the actor by default, as a sub-multiset of the table |
| Groups.ReturnGroupFromId | camelot/controllers/groupcontroller.py:95-102 | The stored group when the id exists, NotFound iff it does not |
| Groups.CreateKeepsNamesUnique | camelot/controllers/groupcontroller.py:18-30 | Appending a group under a name unused by its owner keeps group names unique per owner |
| Groups.MembersChangeKeepsWellFormed | camelot/controllers/groupcontroller.py:60-61 | Changing one group's members keeps the group table invariant |
| Groups.GroupController.Create | camelot/controllers/groupcontroller.py:11-30 | AlreadyExists with no change when the actor owns a group of that name; otherwise exactly one new group, owned by the actor and empty, is appended |
| Groups.GroupController.AddMember | camelot/controllers/groupcontroller.py:32-62 | True iff the two profiles are friends or a request is pending, the actor owns the group, and the profile is not yet a member; on success only that group gains only that profile, and is_in_group then holds; otherwise no change |
| Friends.AreFriends | camelot/controllers/albumcontroller.py:55 | Some record joins the two profiles, in either direction, with exactly the given confirmed flag; its properties are AreFriendsSymmetric and FriendOrPendingIffRecord |
| Friends.AreFriendsSymmetric | camelot/controllers/groupcontroller.py:42 | Friendship in either confirmed state does not depend on who sent the request |
| Friends.FriendOrPendingIffRecord | camelot/controllers/groupcontroller.py:41-45 | Friends or pending holds iff some record joins the two profiles |
| Friends.FindRequest | camelot/controllers/friendcontroller.py:41-44 | The lookup finds a position holding an unconfirmed request from that requester to the actor, or proves none exists |
| Friends.PendingRequests | camelot/controllers/friendcontroller.py:68-73 | A record is in the result iff it is stored, unconfirmed, and addressed to the actor; the result is a sub-multiset of the table |
| Friends.AddKeepsAtMostOne | camelot/controllers/friendcontroller.py:15-27 | Appending a request between a pair with no record keeps at most one record per unordered pair |
| Friends.ConfirmKeepsAtMostOne | camelot/controllers/friendcontroller.py:46-49 | Setting one record's flag keeps at most one record per unordered pair |
| Friends.OneRecordPerPair | camelot/controllers/friendcontroller.py:15-27 | Under the invariant, two records joining the same pair are the same record |
| Friends.AddThenReverseFails | camelot/controllers/friendcontroller.py:20-22 | After a request from a to b is stored, a record joins b and a, so a request from b to a is refused |
| Friends.SecondConfirmFails | camelot/controllers/friendcontroller.py:40-53 | After a successful confirm, the lookup for a second confirm of the same pair finds nothing |
| Friends.RequesterCannotConfirm | camelot/controllers/friendcontroller.py:40-44 | The sender of a request, confirming the other party, finds no open request |
| Friends.SelfRequestIsOpen | camelot/controllers/friendcontroller.py:15-27 | A request from a profile to itself, once stored, is an open request that the same profile finds when it confirms |
| Friends.FriendController.Add | camelot/controllers/friendcontroller.py:8-30 | AlreadyExists with no change iff a record joins actor and profile in either direction, whatever its flag; otherwise exactly one unconfirmed request from actor to profile is appended |
| Friends.FriendController.Confirm | camelot/controllers/friendcontroller.py:32-53 | True iff an unconfirmed request from the profile to the actor exists; on success only that record becomes confirmed and the two are friends; otherwise no change |
| Scenarios.CompleteAddFriends | camelot/tests/test_permissions.py:104-108 | A request from a to b, confirmed by b, both succeed and append one confirmed record |
| Scenarios.SetUp | camelot/tests/test_permissions.py:69-98 | The common set-up leaves one ALL_FRIENDS album of the owner with the owner's empty group attached |
| Scenarios.Escalate | camelot/tests/test_permissions.py:135-184 | Setting the access type to each of the four levels in turn and looking the album up records, per level, whether the viewer is granted |
| Scenarios.EscalateAsWritten | camelot/tests/test_permissions.py:135-184 | With set_accesstype as written, each of the four rounds looks up the stored album and applies the view check as written, so the viewer gets the same answer, or the same raise, at every level |
| Scenarios.NotLoggedIn | camelot/tests/test_permissions.py:216-236 | An anonymous visitor is granted at PUBLIC only |
| Scenarios.NotLoggedInAsWritten | camelot/tests/test_permissions.py:216-236 | With set_accesstype as written, an anonymous visitor is refused, without a raise, at all four levels, PUBLIC included |
| Scenarios.LoggedInNotFriend | camelot/tests/test_permissions.py:238-256 | A signed-in stranger is granted at PUBLIC only |
| Scenarios.LoggedInFriendNotInGroup | camelot/tests/test_permissions.py:258-275 | A confirmed friend outside the group is granted at PUBLIC and ALL_FRIENDS only |
| Scenarios.LoggedInFriendInGroup | camelot/tests/test_permissions.py:277-293 | A confirmed friend in the group is granted at every level but PRIVATE |
| Scenarios.LoggedInContributor | camelot/tests/test_permissions.py:117-127 | Adding a contributor fails before the friendship and succeeds after it; the contributor is then granted at every level |
| Scenarios.UploadByNotFriend | camelot/tests/test_permissions.py:364-371 | A signed-in stranger cannot upload to a PUBLIC album it can view: PermissionDenied |
| Scenarios.AddMemberNeedsRecord | camelot/controllers/groupcontroller.py:39-62 | add_member refuses a profile with no friendship record, accepts one with only a pending request, and refuses a second identical call |

## Left out

- The ORM (`objects.get`, `filter`, `save`, many-to-many `.add`) becomes reads and writes of the store's sequences. Querysets are modelled as sequences in table order.
- The acting profile, supplied by the controller base class `genericcontroller`, is a constructor argument. `genericcontroller`, `utilities`, `constants` and `models` are not part of this model beyond the roles named above.
- `timezone.now()` in `create_album` is a parameter `now`.
- Filesystem effects in `add_photo_to_album` are modelled by the store's `files` map, which receives the copied bytes under the photo's filename. This covers `makedirs`, `open` and the file handle. Directories and I/O errors are not modelled.
- Albums.AlbumController.CreateAlbum, Groups.GroupController.Create, Friends.FriendController.Add: these require a signed-in actor. With an anonymous actor the outcome depends on the unseen models (a null owner).
- Albums.AlbumController.SetAccesstype: in the source the assignment is made on the caller's album object and `save()` is not called. The model writes the stored record, as a later save by the caller would. `Scenarios.Escalate` and the `Scenarios.NotLoggedIn`/`LoggedIn*` replays rest on that write; the code as written is `Albums.AlbumController.SetAccesstypeAsWritten`, recorded under "## Findings". `Scenarios.UploadByNotFriend` also calls `SetAccesstype`; with the assignment as written it still ends in PermissionDenied, but because the view check refuses the stored ALL_FRIENDS album rather than because of the owner-or-contributor check.
- Albums.ReturnAlbum: it uses the corrected permission check, so an anonymous viewer of a GROUPS album with a group attached gets PermissionDenied, where the code as written raises from `is_in_group` (see "## Findings").
- Albums.AlbumController.ReturnAlbums: it uses the corrected permission check, so for an anonymous viewer a GROUPS album with a group attached is left out of the list, where the code as written raises.
- Albums.AlbumController.AddPhotoToAlbum: its lookup uses the corrected permission check, so an anonymous actor on a GROUPS album with a group attached gets PermissionDenied, where the code as written raises.
- Profiles are compared as values (id and user id together), while the source compares them by primary key. The model assumes a profile's id determines its user id, so that each profile has one value.
- Albums.AlbumController.SetAccesstype: the `isinstance(type, int)` check is subsumed by the parameter's type `int`.
- `return_friend_list` is left out. Its own comments call it broken, and it depends on a `profile.friends` relation that is not part of this model.
- The stubs with `pass` bodies have no behaviour and are not modelled: `delete_album`, `remove_group_from_album`, `delete_group`, `delete_member`, `delete`.
- Concurrency between requests is not modelled: each operation is one atomic step on the store. Races between the existence checks and the saves are out of scope.
- Scenarios.CompleteAddFriends: the test helper `complete_add_friends` is imported from a module that is not part of this model, and it takes user ids. The model assumes that it makes the first profile send a request to the second and the second confirm it.
- Groups.GroupController.AddMember: the friendship guard is a Python `assert` (groupcontroller.py:42), which `python -O` removes. The model always applies the guard, as the code does when assertions are enabled.
- Upload.CopyInChunks: the upload is a byte sequence already in memory. Reading from a stream that fails part-way is not modelled.

## Findings

| source | as written | input that shows it | evidently intended | confidence | as-written member | corrected member |
|---|---|---|---|---|---|---|
| camelot/controllers/groupcontroller.py:93 | `is_in_group` reads `profile.id`, and `has_permission_to_view` calls it with the actor, who is absent for an anonymous visitor | An anonymous viewer, and an album at GROUPS with one group attached: the permission check raises instead of returning false | A visitor who is not a member is denied (the tests expect a permission error for anonymous viewers at GROUPS) | not executed; assumes an anonymous visitor is bound to no profile | Albums.HasPermissionToViewAsWritten (Albums.AsWrittenRaisesForAnonymous) | Albums.HasPermissionToView (Albums.AnonymousSeesOnlyPublic, Albums.AsWrittenAgreesForProfiles) |
| camelot/controllers/albumcontroller.py:178-180 | `set_accesstype` assigns the new type to the caller's album object and returns True, but never calls `save()` | The set-up's ALL_FRIENDS album, an anonymous visitor, the type set to PUBLIC, then the album looked up by id as the permission tests do: the lookup sees ALL_FRIENDS and refuses, where the tests expect access | The new access type is stored | not executed; assumes the album views look the album up by id in the store, as return_album does | Albums.AlbumController.SetAccesstypeAsWritten (Scenarios.EscalateAsWritten, Scenarios.NotLoggedInAsWritten) | Albums.AlbumController.SetAccesstype (Scenarios.Escalate, Scenarios.NotLoggedIn) |
