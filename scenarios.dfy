/** The set-ups of the permission tests, replayed through the controllers'
    contracts: a fresh store, profile 1 owning the album "test name" and the
    group "test group" attached to it, and profile 2 as the other party. */
module Scenarios {
  import opened Models
  import opened Store
  import opened Friends
  import opened Groups
  import opened Albums

  /** complete_add_friends: `a` sends a request to `b`, and `b` confirms it. */
  method CompleteAddFriends(db: Db, a: Profile, b: Profile) returns (sent: bool, accepted: bool)
    requires db.Valid() && !RecordExists(db.friendships, a, b)
    modifies db
    ensures db.Valid()
    ensures sent && accepted
    ensures db.State() == old(db.State()).(friendships := old(db.friendships) + [Friendship(a, b, true)])
  {
    var requester := new FriendController(db, Some(a));
    var request := requester.Add(b);
    sent := request.Ok?;
    var requestee := new FriendController(db, Some(b));
    assert IsOpenRequest(db.friendships[|db.friendships| - 1], a, Some(b));
    RequestFoundLast(db.friendships, a, b);
    accepted := requestee.Confirm(a);
  }

  /** The only open request from `a` to `b` is the one just appended. */
  lemma RequestFoundLast(fs: seq<Friendship>, a: Profile, b: Profile)
    requires |fs| > 0 && IsOpenRequest(fs[|fs| - 1], a, Some(b))
    ensures FindRequest(fs, a, Some(b)) == Some(|fs| - 1)
  {
  }

  /** The common set-up: album 0 of `owner`, with `owner`'s group 0 attached. */
  method SetUp(owner: Profile) returns (db: Db, albumcontrol: AlbumController)
    ensures fresh(db) && db.Valid() && albumcontrol.db == db && albumcontrol.uprofile == Some(owner)
    ensures db.State() == Tables(
      [Album(0, "test name", "test description", 0, owner, ALBUM_ALLFRIENDS, [], [0])],
      [], [FriendGroup(0, "test group", owner, {})], [], map[])
  {
    db := new Db();
    albumcontrol := new AlbumController(db, Some(owner));
    var testalbum := albumcontrol.CreateAlbum("test name", "test description", 0);
    assert db.albums == [Album(0, "test name", "test description", 0, owner, ALBUM_ALLFRIENDS, [], [])];
    var groupcontrol := new GroupController(db, Some(owner));
    var testgroup := groupcontrol.Create("test group");
    assert db.groups == [FriendGroup(0, "test group", owner, {})];
    var attached := albumcontrol.AddGroupToAlbum(0, 0);
    assert attached;
    assert Insert([], 0) == [0];
    assert db.albums == [Album(0, "test name", "test description", 0, owner, ALBUM_ALLFRIENDS, [], [0])];
    assert db.photos == [] && db.friendships == [] && db.files == map[];
  }

  /** Access of profile 2 to album 0 at PUBLIC, ALL_FRIENDS, GROUPS and PRIVATE, in that order. */
  method Escalate(db: Db, albumcontrol: AlbumController, viewer: Option<Profile>) returns (granted: seq<bool>)
    requires db.Valid() && albumcontrol.db == db && |db.albums| > 0 && Some(db.albums[0].owner) == albumcontrol.uprofile
    modifies db
    ensures db.Valid()
    ensures db.State() == old(db.State()).(albums := old(db.albums)[0 := old(db.albums[0]).(accesstype := ALBUM_PRIVATE)])
    ensures |granted| == 4
    ensures forall k :: 0 <= k < 4 ==>
      granted[k] == HasPermissionToView(db.friendships, db.groups, viewer, db.albums[0].(accesstype := k + 1))
  {
    granted := [];
    var t := ALBUM_PUBLIC;
    while t <= ALBUM_PRIVATE
      invariant ALBUM_PUBLIC <= t <= ALBUM_PRIVATE + 1 && |granted| == t - 1
      invariant db.Valid() && |db.albums| == |old(db.albums)|
      invariant db.State() == old(db.State()).(albums := db.albums)
      invariant db.albums == old(db.albums)[0 := old(db.albums[0]).(accesstype := db.albums[0].accesstype)]
      invariant t > ALBUM_PUBLIC ==> db.albums[0].accesstype == t - 1
      invariant forall k :: 0 <= k < t - 1 ==>
        granted[k] == HasPermissionToView(db.friendships, db.groups, viewer, db.albums[0].(accesstype := k + 1))
    {
      var changed := albumcontrol.SetAccesstype(0, t);
      var shown := ReturnAlbum(db.friendships, db.groups, db.albums, viewer, 0);
      assert db.albums[0] == old(db.albums[0]).(accesstype := t);
      granted := granted + [shown.Ok?];
      t := t + 1;
    }
  }

  /** perm_escalate_helper with set_accesstype as written: each round changes
      only the caller's copy of the album, so every lookup by id sees the
      stored album, whatever level was just set. Each lookup applies the view
      check as written, so a round reports Some(granted) or None where that
      check raises. */
  method EscalateAsWritten(db: Db, albumcontrol: AlbumController, viewer: Option<Profile>) returns (granted: seq<Option<bool>>)
    requires db.Valid() && albumcontrol.db == db && |db.albums| > 0
    ensures
      var v := HasPermissionToViewAsWritten(db.friendships, db.groups, viewer, db.albums[0]);
      granted == [v, v, v, v]
  {
    var testalbum := db.albums[0];
    granted := [];
    var t := ALBUM_PUBLIC;
    while t <= ALBUM_PRIVATE
      invariant ALBUM_PUBLIC <= t <= ALBUM_PRIVATE + 1 && |granted| == t - 1
      invariant forall k :: 0 <= k < t - 1 ==>
        granted[k] == HasPermissionToViewAsWritten(db.friendships, db.groups, viewer, db.albums[0])
    {
      var changed, copy := albumcontrol.SetAccesstypeAsWritten(testalbum, t);
      testalbum := copy;
      var shown := HasPermissionToViewAsWritten(db.friendships, db.groups, viewer, db.albums[0]);
      granted := granted + [shown];
      t := t + 1;
    }
  }

  /** An anonymous visitor sees the album only while it is PUBLIC. */
  method NotLoggedIn() returns (granted: seq<bool>)
    ensures granted == [true, false, false, false]
  {
    var u := Profile(1, 1);
    var db, albumcontrol := SetUp(u);
    granted := Escalate(db, albumcontrol, None);
    forall t | ALBUM_PUBLIC <= t <= ALBUM_PRIVATE
      ensures HasPermissionToView(db.friendships, db.groups, None, db.albums[0].(accesstype := t)) == (t == ALBUM_PUBLIC)
    {
      AnonymousSeesOnlyPublic(db.friendships, db.groups, db.albums[0].(accesstype := t));
    }
  }

  /** With set_accesstype as written, the anonymous visitor is refused at every
      level, PUBLIC included, because the stored album stays ALL_FRIENDS. */
  method NotLoggedInAsWritten() returns (granted: seq<Option<bool>>)
    ensures granted == [Some(false), Some(false), Some(false), Some(false)]
  {
    var u := Profile(1, 1);
    var db, albumcontrol := SetUp(u);
    granted := EscalateAsWritten(db, albumcontrol, None);
  }

  /** A signed-in profile that is no friend sees the album only while it is PUBLIC. */
  method LoggedInNotFriend() returns (granted: seq<bool>)
    ensures granted == [true, false, false, false]
  {
    var u, u2 := Profile(1, 1), Profile(2, 2);
    var db, albumcontrol := SetUp(u);
    granted := Escalate(db, albumcontrol, Some(u2));
    forall t | ALBUM_PUBLIC <= t <= ALBUM_PRIVATE
      ensures HasPermissionToView(db.friendships, db.groups, Some(u2), db.albums[0].(accesstype := t)) == (t == ALBUM_PUBLIC)
    {
      StrangerSeesOnlyPublic(db.friendships, db.groups, u2, db.albums[0].(accesstype := t));
    }
  }

  /** A confirmed friend outside the album's groups sees it at PUBLIC and ALL_FRIENDS. */
  method LoggedInFriendNotInGroup() returns (granted: seq<bool>)
    ensures granted == [true, true, false, false]
  {
    var u, u2 := Profile(1, 1), Profile(2, 2);
    var db, albumcontrol := SetUp(u);
    var sent, accepted := CompleteAddFriends(db, u, u2);
    assert Between(db.friendships[0], u, u2);
    granted := Escalate(db, albumcontrol, Some(u2));
    forall t | ALBUM_PUBLIC <= t <= ALBUM_PRIVATE
      ensures HasPermissionToView(db.friendships, db.groups, Some(u2), db.albums[0].(accesstype := t)) == (t <= ALBUM_ALLFRIENDS)
    {
      FriendNotInGroupSees(db.friendships, db.groups, u2, db.albums[0].(accesstype := t));
    }
  }

  /** A confirmed friend added to the album's group sees it at every level but PRIVATE. */
  method LoggedInFriendInGroup() returns (granted: seq<bool>)
    ensures granted == [true, true, true, false]
  {
    var u, u2 := Profile(1, 1), Profile(2, 2);
    var db, albumcontrol := SetUp(u);
    var sent, accepted := CompleteAddFriends(db, u, u2);
    assert Between(db.friendships[0], u, u2);
    var groupcontrol := new GroupController(db, Some(u));
    var member := groupcontrol.AddMember(0, u2);
    granted := Escalate(db, albumcontrol, Some(u2));
    forall t | ALBUM_PUBLIC <= t <= ALBUM_PRIVATE
      ensures HasPermissionToView(db.friendships, db.groups, Some(u2), db.albums[0].(accesstype := t)) == (t <= ALBUM_GROUPS)
    {
      FriendInGroupSees(db.friendships, db.groups, u2, db.albums[0].(accesstype := t), 0);
    }
  }

  /** Adding a contributor fails before the friendship and succeeds after it;
      the contributor then sees the album at every level. */
  method LoggedInContributor() returns (before: bool, after: bool, granted: seq<bool>)
    ensures !before && after
    ensures granted == [true, true, true, true]
  {
    var u, u2 := Profile(1, 1), Profile(2, 2);
    var db, albumcontrol := SetUp(u);
    before := albumcontrol.AddContributorToAlbum(0, u2);
    var sent, accepted := CompleteAddFriends(db, u, u2);
    assert Between(db.friendships[0], u, u2);
    after := albumcontrol.AddContributorToAlbum(0, u2);
    granted := Escalate(db, albumcontrol, Some(u2));
  }

  /** A profile that is no friend cannot upload into a PUBLIC album it can view. */
  method UploadByNotFriend(fi: seq<byte>) returns (r: Result<Photo>)
    ensures r == Err(PermissionDenied)
  {
    var u, u2 := Profile(1, 1), Profile(2, 2);
    var db, albumcontrol := SetUp(u);
    var changed := albumcontrol.SetAccesstype(0, ALBUM_PUBLIC);
    var visitor := new AlbumController(db, Some(u2));
    r := visitor.AddPhotoToAlbum(0, "our test album", fi);
  }

  /** add_member refuses a profile with no friendship record, accepts it once a
      request is pending, and refuses a second identical call. */
  method AddMemberNeedsRecord() returns (first: bool, second: bool, third: bool)
    ensures !first && second && !third
  {
    var u, u2 := Profile(1, 1), Profile(2, 2);
    var db, albumcontrol := SetUp(u);
    var groupcontrol := new GroupController(db, Some(u));
    first := groupcontrol.AddMember(0, u2);
    var requester := new FriendController(db, Some(u));
    var request := requester.Add(u2);
    assert Between(db.friendships[0], u2, u) && !db.friendships[0].confirmed;
    second := groupcontrol.AddMember(0, u2);
    third := groupcontrol.AddMember(0, u2);
  }
}
