/** The album access model and the album/photo lifecycle: who may view an
    album, the lookups and listings that apply that rule, and the operations
    that create albums, attach photos, and change access type, contributors
    and groups. */
module Albums {
  import opened Models
  import opened Store
  import opened Friends
  import opened Groups
  import Format
  import Upload

  /** collate_owner_and_contrib: the contributors in order, then the owner. */
  function CollateOwnerAndContrib(a: Album): (r: seq<Profile>)
    ensures |r| == |a.contributors| + 1 && r[|r| - 1] == a.owner
    ensures forall p :: p in r <==> p == a.owner || p in a.contributors
  {
    a.contributors + [a.owner]
  }

  predicate IsOwnerOrContributor(viewer: Option<Profile>, a: Album) {
    viewer.Some? && (viewer.value == a.owner || viewer.value in a.contributors)
  }

  /** The ALL_FRIENDS loop: the viewer is a confirmed friend of one of `people`,
      checked in order with an early return. */
  function AnyConfirmedFriend(fs: seq<Friendship>, viewer: Option<Profile>, people: seq<Profile>): (r: bool)
    ensures r <==> viewer.Some? && exists k :: 0 <= k < |people| && AreFriends(fs, viewer.value, people[k], true)
  {
    if |people| == 0 then false
    else if viewer.Some? && AreFriends(fs, viewer.value, people[0], true) then true
    else
      assert forall k :: 0 <= k < |people| - 1 ==> people[1..][k] == people[k + 1];
      AnyConfirmedFriend(fs, viewer, people[1..])
  }

  /** The viewer is a member of the group with id `gid`. */
  predicate InGroupWithId(gs: seq<FriendGroup>, gid: nat, viewer: Option<Profile>) {
    viewer.Some? && gid < |gs| && IsInGroup(gs[gid], viewer.value)
  }

  /** The GROUPS loop: the viewer is in one of the groups `gids`, checked in
      order with an early return. */
  function AnyGroupMember(gs: seq<FriendGroup>, viewer: Option<Profile>, gids: seq<nat>): (r: bool)
    ensures r <==> exists k :: 0 <= k < |gids| && InGroupWithId(gs, gids[k], viewer)
  {
    if |gids| == 0 then false
    else if InGroupWithId(gs, gids[0], viewer) then true
    else
      assert forall k :: 0 <= k < |gids| - 1 ==> gids[1..][k] == gids[k + 1];
      AnyGroupMember(gs, viewer, gids[1..])
  }

  /** has_permission_to_view: the first matching tier decides. PUBLIC grants
      everyone; the owner and the contributors are always granted; ALL_FRIENDS
      grants confirmed friends of the owner or of a contributor; GROUPS grants
      members of an attached group; anything else is denied. */
  function HasPermissionToView(fs: seq<Friendship>, gs: seq<FriendGroup>, viewer: Option<Profile>, a: Album): (r: bool)
    ensures a.accesstype == ALBUM_PUBLIC || IsOwnerOrContributor(viewer, a) ==> r
    ensures r ==> a.accesstype == ALBUM_PUBLIC || viewer.Some?
  {
    if a.accesstype == ALBUM_PUBLIC then true
    else if IsOwnerOrContributor(viewer, a) then true
    else if a.accesstype == ALBUM_ALLFRIENDS then AnyConfirmedFriend(fs, viewer, CollateOwnerAndContrib(a))
    else if a.accesstype == ALBUM_GROUPS then AnyGroupMember(gs, viewer, a.groups)
    else false
  }

  /** A PUBLIC album is viewable by every viewer, anonymous ones included. */
  lemma PublicViewableByAll(fs: seq<Friendship>, gs: seq<FriendGroup>, viewer: Option<Profile>, a: Album)
    requires a.accesstype == ALBUM_PUBLIC
    ensures HasPermissionToView(fs, gs, viewer, a)
  {
  }

  /** The owner and every contributor can view the album at every access type. */
  lemma OwnerAndContributorsView(fs: seq<Friendship>, gs: seq<FriendGroup>, p: Profile, a: Album)
    requires p == a.owner || p in a.contributors
    ensures HasPermissionToView(fs, gs, Some(p), a)
  {
  }

  /** Under ALL_FRIENDS, any other viewer is granted exactly when a confirmed
      friend of the owner or of some contributor. */
  lemma AllFriendsTier(fs: seq<Friendship>, gs: seq<FriendGroup>, viewer: Option<Profile>, a: Album)
    requires a.accesstype == ALBUM_ALLFRIENDS && !IsOwnerOrContributor(viewer, a)
    ensures HasPermissionToView(fs, gs, viewer, a) <==>
      viewer.Some? &&
      (AreFriends(fs, viewer.value, a.owner, true) ||
       exists k :: 0 <= k < |a.contributors| && AreFriends(fs, viewer.value, a.contributors[k], true))
  {
    var people := CollateOwnerAndContrib(a);
    assert forall k :: 0 <= k < |a.contributors| ==> people[k] == a.contributors[k];
    assert people[|people| - 1] == a.owner;
  }

  /** Under GROUPS, any other viewer is granted exactly when a member of one
      of the album's groups; being a friend does not suffice. */
  lemma GroupsTier(fs: seq<Friendship>, gs: seq<FriendGroup>, viewer: Option<Profile>, a: Album)
    requires a.accesstype == ALBUM_GROUPS && !IsOwnerOrContributor(viewer, a)
    ensures HasPermissionToView(fs, gs, viewer, a) <==>
      viewer.Some? &&
      exists k :: 0 <= k < |a.groups| && a.groups[k] < |gs| && viewer.value in gs[a.groups[k]].members
  {
    if HasPermissionToView(fs, gs, viewer, a) {
      var k :| 0 <= k < |a.groups| && InGroupWithId(gs, a.groups[k], viewer);
    }
  }

  /** Under PRIVATE, or any value outside the first three tiers, only the
      owner and the contributors are granted. */
  lemma PrivateTier(fs: seq<Friendship>, gs: seq<FriendGroup>, viewer: Option<Profile>, a: Album)
    requires a.accesstype != ALBUM_PUBLIC && a.accesstype != ALBUM_ALLFRIENDS && a.accesstype != ALBUM_GROUPS
    ensures HasPermissionToView(fs, gs, viewer, a) <==> IsOwnerOrContributor(viewer, a)
  {
  }

  /** An anonymous viewer sees PUBLIC albums and nothing else. */
  lemma AnonymousSeesOnlyPublic(fs: seq<Friendship>, gs: seq<FriendGroup>, a: Album)
    ensures HasPermissionToView(fs, gs, None, a) <==> a.accesstype == ALBUM_PUBLIC
  {
    if a.accesstype == ALBUM_GROUPS {
      assert !AnyGroupMember(gs, None, a.groups);
    }
  }

  /** The viewer has no confirmed friendship with the owner or any contributor. */
  predicate NoFriendIn(fs: seq<Friendship>, p: Profile, a: Album) {
    !AreFriends(fs, p, a.owner, true) && forall k :: 0 <= k < |a.contributors| ==> !AreFriends(fs, p, a.contributors[k], true)
  }

  /** The viewer is in none of the album's groups. */
  predicate InNoGroupOf(gs: seq<FriendGroup>, p: Profile, a: Album) {
    forall k :: 0 <= k < |a.groups| && a.groups[k] < |gs| ==> p !in gs[a.groups[k]].members
  }

  /** A signed-in viewer who is not a friend has the rights of an anonymous one: PUBLIC only. */
  lemma StrangerSeesOnlyPublic(fs: seq<Friendship>, gs: seq<FriendGroup>, p: Profile, a: Album)
    requires !IsOwnerOrContributor(Some(p), a)
    requires NoFriendIn(fs, p, a) && InNoGroupOf(gs, p, a)
    ensures HasPermissionToView(fs, gs, Some(p), a) <==> a.accesstype == ALBUM_PUBLIC
  {
    if a.accesstype == ALBUM_ALLFRIENDS {
      AllFriendsTier(fs, gs, Some(p), a);
    } else if a.accesstype == ALBUM_GROUPS {
      GroupsTier(fs, gs, Some(p), a);
    }
  }

  /** A confirmed friend of the owner in none of the album's groups sees
      PUBLIC and ALL_FRIENDS albums, and not GROUPS or PRIVATE ones. */
  lemma FriendNotInGroupSees(fs: seq<Friendship>, gs: seq<FriendGroup>, p: Profile, a: Album)
    requires !IsOwnerOrContributor(Some(p), a) && ValidAccesstype(a.accesstype)
    requires AreFriends(fs, a.owner, p, true) && InNoGroupOf(gs, p, a)
    ensures HasPermissionToView(fs, gs, Some(p), a) <==> a.accesstype <= ALBUM_ALLFRIENDS
  {
    AreFriendsSymmetric(fs, a.owner, p, true);
    if a.accesstype == ALBUM_ALLFRIENDS {
      AllFriendsTier(fs, gs, Some(p), a);
    } else if a.accesstype == ALBUM_GROUPS {
      GroupsTier(fs, gs, Some(p), a);
    }
  }

  /** A confirmed friend of the owner who is in one of the album's groups sees
      every album but a PRIVATE one. */
  lemma FriendInGroupSees(fs: seq<Friendship>, gs: seq<FriendGroup>, p: Profile, a: Album, k: nat)
    requires !IsOwnerOrContributor(Some(p), a) && ValidAccesstype(a.accesstype)
    requires AreFriends(fs, a.owner, p, true)
    requires k < |a.groups| && a.groups[k] < |gs| && p in gs[a.groups[k]].members
    ensures HasPermissionToView(fs, gs, Some(p), a) <==> a.accesstype <= ALBUM_GROUPS
  {
    AreFriendsSymmetric(fs, a.owner, p, true);
    if a.accesstype == ALBUM_ALLFRIENDS {
      AllFriendsTier(fs, gs, Some(p), a);
    } else if a.accesstype == ALBUM_GROUPS {
      GroupsTier(fs, gs, Some(p), a);
    }
  }

  /** The GROUPS loop as written: is_in_group reads `profile.id`, so for an
      anonymous viewer the first group visited raises instead of answering.
      None stands for that exception. */
  function AnyGroupMemberAsWritten(gs: seq<FriendGroup>, viewer: Option<Profile>, gids: seq<nat>): (r: Option<bool>)
    ensures r.None? <==> viewer.None? && |gids| > 0
  {
    if |gids| == 0 then Some(false)
    else if viewer.None? then None
    else if InGroupWithId(gs, gids[0], viewer) then Some(true)
    else AnyGroupMemberAsWritten(gs, viewer, gids[1..])
  }

  /** has_permission_to_view with the GROUPS loop as written. */
  function HasPermissionToViewAsWritten(fs: seq<Friendship>, gs: seq<FriendGroup>, viewer: Option<Profile>, a: Album): (r: Option<bool>)
    ensures r.None? <==> viewer.None? && a.accesstype == ALBUM_GROUPS && |a.groups| > 0
  {
    if a.accesstype == ALBUM_PUBLIC then Some(true)
    else if IsOwnerOrContributor(viewer, a) then Some(true)
    else if a.accesstype == ALBUM_ALLFRIENDS then Some(AnyConfirmedFriend(fs, viewer, CollateOwnerAndContrib(a)))
    else if a.accesstype == ALBUM_GROUPS then AnyGroupMemberAsWritten(gs, viewer, a.groups)
    else Some(false)
  }

  /** An anonymous viewer of a GROUPS album with a group attached gets an
      exception from the check as written, not a denial. */
  lemma AsWrittenRaisesForAnonymous(fs: seq<Friendship>, gs: seq<FriendGroup>, a: Album)
    requires a.accesstype == ALBUM_GROUPS && |a.groups| > 0
    ensures HasPermissionToViewAsWritten(fs, gs, None, a).None?
  {
  }

  /** For a signed-in viewer the check as written and the corrected one agree. */
  lemma {:induction false} AsWrittenAgreesForProfiles(fs: seq<Friendship>, gs: seq<FriendGroup>, p: Profile, a: Album)
    ensures HasPermissionToViewAsWritten(fs, gs, Some(p), a) == Some(HasPermissionToView(fs, gs, Some(p), a))
  {
    if a.accesstype == ALBUM_GROUPS && !IsOwnerOrContributor(Some(p), a) {
      GroupLoopAgrees(gs, p, a.groups);
    }
  }

  lemma {:induction false} GroupLoopAgrees(gs: seq<FriendGroup>, p: Profile, gids: seq<nat>)
    ensures AnyGroupMemberAsWritten(gs, Some(p), gids) == Some(AnyGroupMember(gs, Some(p), gids))
    decreases |gids|
  {
    if |gids| > 0 && !InGroupWithId(gs, gids[0], Some(p)) {
      GroupLoopAgrees(gs, p, gids[1..]);
    }
  }

  /** return_album(id): NotFound for an absent id, PermissionDenied when the
      viewer may not see the album, and the album otherwise. */
  function ReturnAlbum(fs: seq<Friendship>, gs: seq<FriendGroup>, albums: seq<Album>, viewer: Option<Profile>, id: nat): (r: Result<Album>)
    ensures r == Err(NotFound) <==> id >= |albums|
    ensures r == Err(PermissionDenied) <==> id < |albums| && !HasPermissionToView(fs, gs, viewer, albums[id])
    ensures r.Ok? ==> r.value == albums[id] && HasPermissionToView(fs, gs, viewer, r.value)
  {
    if id >= |albums| then Err(NotFound)
    else if HasPermissionToView(fs, gs, viewer, albums[id]) then Ok(albums[id])
    else Err(PermissionDenied)
  }

  /** return_photo(id): the photo with that id, or NotFound; no permission check. */
  function ReturnPhoto(photos: seq<Photo>, id: nat): (r: Result<Photo>)
    ensures r.Ok? <==> id < |photos|
    ensures r.Ok? ==> r.value == photos[id]
    ensures r.Err? ==> r.error == NotFound
  {
    if id < |photos| then Ok(photos[id]) else Err(NotFound)
  }

  /** get_photos_for_album: the photos of the album. */
  function GetPhotosForAlbum(photos: seq<Photo>, albumId: nat): (r: seq<Photo>)
    ensures |r| <= |photos|
    ensures forall p :: p in r <==> p in photos && p.album == albumId
    ensures multiset(r) <= multiset(photos)
  {
    if |photos| == 0 then []
    else
      var last := photos[|photos| - 1];
      assert photos == photos[..|photos| - 1] + [last];
      GetPhotosForAlbum(photos[..|photos| - 1], albumId) + (if last.album == albumId then [last] else [])
  }

  predicate IdsIncreasing(s: seq<Album>) {
    forall i, j :: 0 <= i < j < |s| ==> s[i].id < s[j].id
  }

  /** The query filter(owner=target): the albums of `target`, in table order. */
  function OwnedAlbums(albums: seq<Album>, target: Option<Profile>): (r: seq<Album>)
    ensures |r| <= |albums|
    ensures forall a :: a in r <==> a in albums && Some(a.owner) == target
    ensures IdsIncreasing(albums) ==> IdsIncreasing(r)
  {
    if |albums| == 0 then []
    else
      var last := albums[|albums| - 1];
      OwnedAlbums(albums[..|albums| - 1], target) + (if Some(last.owner) == target then [last] else [])
  }

  /** The albums of `s` the viewer may see, in order. */
  function ViewableAmong(fs: seq<Friendship>, gs: seq<FriendGroup>, viewer: Option<Profile>, s: seq<Album>): (r: seq<Album>)
    ensures |r| <= |s|
    ensures forall a :: a in r <==> a in s && HasPermissionToView(fs, gs, viewer, a)
    ensures IdsIncreasing(s) ==> IdsIncreasing(r)
  {
    if |s| == 0 then []
    else
      var last := s[|s| - 1];
      assert IdsIncreasing(s) ==> forall a :: a in s[..|s| - 1] ==> a.id < last.id;
      ViewableAmong(fs, gs, viewer, s[..|s| - 1]) + (if HasPermissionToView(fs, gs, viewer, last) then [last] else [])
  }

  /** When every album of `s` is viewable, filtering by permission keeps all of `s`. */
  lemma {:induction false} AllViewableKept(fs: seq<Friendship>, gs: seq<FriendGroup>, viewer: Option<Profile>, s: seq<Album>)
    requires forall k :: 0 <= k < |s| ==> HasPermissionToView(fs, gs, viewer, s[k])
    ensures ViewableAmong(fs, gs, viewer, s) == s
  {
    if |s| > 0 {
      AllViewableKept(fs, gs, viewer, s[..|s| - 1]);
      assert s[..|s| - 1] + [s[|s| - 1]] == s;
    }
  }

  /** A profile listing its own albums gets all of them. */
  lemma OwnListingIsComplete(fs: seq<Friendship>, gs: seq<FriendGroup>, albums: seq<Album>, p: Profile)
    ensures ViewableAmong(fs, gs, Some(p), OwnedAlbums(albums, Some(p))) == OwnedAlbums(albums, Some(p))
  {
    var owned := OwnedAlbums(albums, Some(p));
    forall k | 0 <= k < |owned|
      ensures HasPermissionToView(fs, gs, Some(p), owned[k])
    {
      assert owned[k] in owned;
    }
    AllViewableKept(fs, gs, Some(p), owned);
  }

  /** The lookup get(owner=owner, name=name) finds an album. */
  predicate HasAlbumNamed(albums: seq<Album>, owner: Profile, name: string) {
    exists i :: 0 <= i < |albums| && albums[i].owner == owner && albums[i].name == name
  }

  /** A new album under a name its owner has not used keeps the album table well formed. */
  lemma NewAlbumKeepsWellFormed(albums: seq<Album>, n: nat, a: Album)
    requires AlbumsWellFormed(albums, n)
    requires !HasAlbumNamed(albums, a.owner, a.name)
    requires a.id == |albums| && ValidAccesstype(a.accesstype) && a.contributors == [] && a.groups == []
    ensures AlbumsWellFormed(albums + [a], n)
  {
    var albums' := albums + [a];
    forall i, j | 0 <= i < j < |albums'| && albums'[i].owner == albums'[j].owner
      ensures albums'[i].name != albums'[j].name
    {
      assert albums'[i] == albums[i];
      if j < |albums| {
        assert albums'[j] == albums[j];
      }
    }
  }

  /** Replacing one album by one with the same id, name and owner and
      well-formed fields keeps the album table well formed. */
  lemma AlbumUpdateKeepsWellFormed(albums: seq<Album>, n: nat, k: nat, a: Album)
    requires AlbumsWellFormed(albums, n)
    requires k < |albums|
    requires a.id == k && a.name == albums[k].name && a.owner == albums[k].owner
    requires ValidAccesstype(a.accesstype) && NoDuplicates(a.contributors) && NoDuplicates(a.groups)
    requires forall g :: g in a.groups ==> g < n
    ensures AlbumsWellFormed(albums[k := a], n)
  {
    var albums' := albums[k := a];
    forall i, j | 0 <= i < j < |albums'| && albums'[i].owner == albums'[j].owner
      ensures albums'[i].name != albums'[j].name
    {
      assert albums'[i].name == albums[i].name && albums'[i].owner == albums[i].owner;
      assert albums'[j].name == albums[j].name && albums'[j].owner == albums[j].owner;
    }
    forall i, m | 0 <= i < |albums'| && 0 <= m < |albums'[i].groups|
      ensures albums'[i].groups[m] < n
    {
      if i == k {
        assert albums'[i].groups[m] in a.groups;
      }
    }
  }

  /** A table whose ids are the positions lists its albums by increasing id. */
  lemma IdsFromPositions(albums: seq<Album>)
    requires forall i :: 0 <= i < |albums| ==> albums[i].id == i
    ensures IdsIncreasing(albums)
  {
  }

  /** albumcontroller: the album operations of the acting profile `uprofile`. */
  class AlbumController {
    const db: Db
    const uprofile: Option<Profile>

    constructor (db: Db, uprofile: Option<Profile>)
      ensures this.db == db && this.uprofile == uprofile
    {
      this.db := db;
      this.uprofile := uprofile;
    }

    /** create_album: a new album of the acting profile, with access type
        ALL_FRIENDS and no contributors or groups; refused when the name is taken. */
    method CreateAlbum(name: string, description: string, now: Timestamp) returns (r: Result<Album>)
      requires db.Valid() && uprofile.Some?
      modifies db
      ensures db.Valid()
      ensures old(HasAlbumNamed(db.albums, uprofile.value, name)) ==>
        r == Err(AlreadyExists) && db.State() == old(db.State())
      ensures !old(HasAlbumNamed(db.albums, uprofile.value, name)) ==>
        && r == Ok(Album(|old(db.albums)|, name, description, now, uprofile.value, ALBUM_ALLFRIENDS, [], []))
        && db.State() == old(db.State()).(albums := old(db.albums) + [r.value])
    {
      if HasAlbumNamed(db.albums, uprofile.value, name) {
        return Err(AlreadyExists);
      }
      var newalbum := Album(|db.albums|, name, description, now, uprofile.value, ALBUM_ALLFRIENDS, [], []);
      NewAlbumKeepsWellFormed(db.albums, |db.groups|, newalbum);
      db.albums := db.albums + [newalbum];
      return Ok(newalbum);
    }

    /** return_albums(profile): the albums of `profile` (by default of the
        acting profile) that the acting profile may view, in table order. */
    method ReturnAlbums(profile: Option<Profile>) returns (albums: seq<Album>)
      requires db.Valid()
      ensures
        var target := if profile.None? then uprofile else profile;
        && albums == ViewableAmong(db.friendships, db.groups, uprofile, OwnedAlbums(db.albums, target))
        && (forall a :: a in albums <==>
              a in db.albums && Some(a.owner) == target && HasPermissionToView(db.friendships, db.groups, uprofile, a))
        && IdsIncreasing(albums)
    {
      var target := if profile.None? then uprofile else profile;
      var fs, gs := db.friendships, db.groups;
      IdsFromPositions(db.albums);
      var albumset := OwnedAlbums(db.albums, target);
      albums := [];
      for i := 0 to |albumset|
        invariant albums == ViewableAmong(fs, gs, uprofile, albumset[..i])
      {
        assert albumset[..i + 1][..i] == albumset[..i];
        if HasPermissionToView(fs, gs, uprofile, albumset[i]) {
          albums := albums + [albumset[i]];
        }
      }
      assert albumset[..|albumset|] == albumset;
    }

    /** add_photo_to_album: look the album up as return_album does, require the
        acting profile to be its owner or a contributor, store a new photo whose
        filename is built from the user id, the album id and the new photo id,
        and copy the upload to that file. */
    method AddPhotoToAlbum(albumid: nat, description: string, fi: seq<byte>) returns (r: Result<Photo>)
      requires db.Valid()
      modifies db
      ensures db.Valid()
      ensures
        var found := old(ReturnAlbum(db.friendships, db.groups, db.albums, uprofile, albumid));
        found.Err? ==> r == Err(found.error) && db.State() == old(db.State())
      ensures
        var found := old(ReturnAlbum(db.friendships, db.groups, db.albums, uprofile, albumid));
        found.Ok? && !IsOwnerOrContributor(uprofile, found.value) ==>
          r == Err(PermissionDenied) && db.State() == old(db.State())
      ensures
        var found := old(ReturnAlbum(db.friendships, db.groups, db.albums, uprofile, albumid));
        var pid := |old(db.photos)|;
        found.Ok? && IsOwnerOrContributor(uprofile, found.value) ==>
          && r == Ok(Photo(pid, description, albumid, Format.PhotoPath(uprofile.value.userId, albumid, pid)))
          && db.State() == old(db.State()).(photos := old(db.photos) + [r.value], files := old(db.files)[r.value.filename := fi])
    {
      var found := ReturnAlbum(db.friendships, db.groups, db.albums, uprofile, albumid);
      if found.Err? {
        return Err(found.error);
      }
      var album := found.value;
      if !IsOwnerOrContributor(uprofile, album) {
        return Err(PermissionDenied);
      }
      // first save: the photo gets its id
      var newphoto := Photo(|db.photos|, description, album.id, "");
      db.photos := db.photos + [newphoto];
      // second save: the filename, which needs that id
      var fname := Format.PhotoPath(uprofile.value.userId, album.id, newphoto.id);
      newphoto := newphoto.(filename := fname);
      db.photos := db.photos[newphoto.id := newphoto];
      var destination, _ := Upload.CopyInChunks(fi);
      db.files := db.files[fname := destination];
      return Ok(newphoto);
    }

    /** set_accesstype as written: the new type is assigned to the caller's
        album object and never saved, so the store is left as it was. */
    method SetAccesstypeAsWritten(album: Album, t: int) returns (ok: bool, caller: Album)
      ensures ok <==> Some(album.owner) == uprofile && ValidAccesstype(t)
      ensures ok ==> caller == album.(accesstype := t)
      ensures !ok ==> caller == album
    {
      if Some(album.owner) == uprofile && ALBUM_PUBLIC <= t <= ALBUM_PRIVATE {
        return true, album.(accesstype := t);
      }
      return false, album;
    }

    /** set_accesstype, with the assignment saved: only the owner, and only to
        one of the four access types. */
    method SetAccesstype(albumId: nat, t: int) returns (ok: bool)
      requires db.Valid() && albumId < |db.albums|
      modifies db
      ensures db.Valid()
      ensures ok <==> Some(old(db.albums[albumId]).owner) == uprofile && ValidAccesstype(t)
      ensures ok ==> db.State() == old(db.State()).(albums := old(db.albums)[albumId := old(db.albums[albumId]).(accesstype := t)])
      ensures !ok ==> db.State() == old(db.State())
    {
      var album := db.albums[albumId];
      if Some(album.owner) == uprofile && ALBUM_PUBLIC <= t <= ALBUM_PRIVATE {
        AlbumUpdateKeepsWellFormed(db.albums, |db.groups|, albumId, album.(accesstype := t));
        db.albums := db.albums[albumId := album.(accesstype := t)];
        return true;
      }
      return false;
    }

    /** add_contributor_to_album: succeeds exactly when the album's owner and
        the contributor are confirmed friends; the caller is not checked. */
    method AddContributorToAlbum(albumId: nat, contributor: Profile) returns (ok: bool)
      requires db.Valid() && albumId < |db.albums|
      modifies db
      ensures db.Valid()
      ensures ok <==> old(AreFriends(db.friendships, db.albums[albumId].owner, contributor, true))
      ensures ok ==>
        var a := old(db.albums[albumId]);
        && db.State() == old(db.State()).(albums := old(db.albums)[albumId := a.(contributors := Insert(a.contributors, contributor))])
        && contributor in db.albums[albumId].contributors
      ensures !ok ==> db.State() == old(db.State())
    {
      var album := db.albums[albumId];
      if !AreFriends(db.friendships, album.owner, contributor, true) {
        return false;
      }
      var updated := album.(contributors := Insert(album.contributors, contributor));
      AlbumUpdateKeepsWellFormed(db.albums, |db.groups|, albumId, updated);
      db.albums := db.albums[albumId := updated];
      return true;
    }

    /** add_group_to_album: the group must belong to the acting profile, and
        the acting profile must own or contribute to the album. */
    method AddGroupToAlbum(albumId: nat, groupId: nat) returns (ok: bool)
      requires db.Valid() && albumId < |db.albums| && groupId < |db.groups|
      modifies db
      ensures db.Valid()
      ensures ok <==> Some(old(db.groups[groupId]).owner) == uprofile && old(IsOwnerOrContributor(uprofile, db.albums[albumId]))
      ensures ok ==>
        var a := old(db.albums[albumId]);
        db.State() == old(db.State()).(albums := old(db.albums)[albumId := a.(groups := Insert(a.groups, groupId))])
      ensures !ok ==> db.State() == old(db.State())
    {
      var group := db.groups[groupId];
      var album := db.albums[albumId];
      if Some(group.owner) != uprofile {
        return false;
      }
      if !IsOwnerOrContributor(uprofile, album) {
        return false;
      }
      var updated := album.(groups := Insert(album.groups, groupId));
      AlbumUpdateKeepsWellFormed(db.albums, |db.groups|, albumId, updated);
      db.albums := db.albums[albumId := updated];
      return true;
    }
  }
}
