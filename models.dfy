/** The records of the photo-sharing store (albums, photos, friend groups,
    friendships), the access-type constants, the result type that stands for
    the exceptions the controllers raise, and the invariants the tables keep. */
module Models {

  datatype Option<+T> = None | Some(value: T)

  /** NotFound is the ORM's DoesNotExist, AlreadyExists and PermissionDenied
      are AlreadyExistsException and PermissionException. */
  datatype Error = NotFound | AlreadyExists | PermissionDenied

  datatype Result<+T> = Ok(value: T) | Err(error: Error)

  newtype byte = x: int | 0 <= x < 256

  /** The value of timezone.now() at creation; the clock is outside the model. */
  type Timestamp = int

  const ALBUM_PUBLIC: int := 1
  const ALBUM_ALLFRIENDS: int := 2
  const ALBUM_GROUPS: int := 3
  const ALBUM_PRIVATE: int := 4

  /** A user's profile; `userId` is the id of the user it belongs to. */
  datatype Profile = Profile(id: nat, userId: nat)

  datatype Album = Album(
    id: nat,
    name: string,
    description: string,
    pubDate: Timestamp,
    owner: Profile,
    accesstype: int,
    contributors: seq<Profile>,
    groups: seq<nat>)

  datatype Photo = Photo(id: nat, description: string, album: nat, filename: string)

  datatype FriendGroup = FriendGroup(id: nat, name: string, owner: Profile, members: set<Profile>)

  /** A directed friend request; `confirmed` is set once the requestee accepts. */
  datatype Friendship = Friendship(requester: Profile, requestee: Profile, confirmed: bool)

  predicate NoDuplicates<T(==)>(s: seq<T>) {
    forall i, j :: 0 <= i < j < |s| ==> s[i] != s[j]
  }

  /** Adding to a many-to-many relation: adding an element already present is a no-op. */
  function Insert<T(==,!new)>(s: seq<T>, x: T): (r: seq<T>)
    ensures forall y :: y in r <==> y in s || y == x
    ensures NoDuplicates(s) ==> NoDuplicates(r)
    ensures x in s ==> r == s
  {
    if x in s then s else s + [x]
  }

  /** The friendship `f` joins `a` and `b`, in one direction or the other. */
  predicate Between(f: Friendship, a: Profile, b: Profile) {
    (f.requester == a && f.requestee == b) || (f.requester == b && f.requestee == a)
  }

  /** At most one friendship record per unordered pair of profiles. */
  predicate AtMostOnePerPair(fs: seq<Friendship>) {
    forall i, j :: 0 <= i < j < |fs| ==> !Between(fs[j], fs[i].requester, fs[i].requestee)
  }

  /** Album names are unique among the albums of one owner. */
  predicate UniqueAlbumNames(albums: seq<Album>) {
    forall i, j :: 0 <= i < j < |albums| && albums[i].owner == albums[j].owner ==> albums[i].name != albums[j].name
  }

  /** Group names are unique among the groups of one owner. */
  predicate UniqueGroupNames(groups: seq<FriendGroup>) {
    forall i, j :: 0 <= i < j < |groups| && groups[i].owner == groups[j].owner ==> groups[i].name != groups[j].name
  }

  predicate ValidAccesstype(t: int) {
    ALBUM_PUBLIC <= t <= ALBUM_PRIVATE
  }

  predicate AlbumsWellFormed(albums: seq<Album>, groupCount: nat) {
    && (forall i :: 0 <= i < |albums| ==> albums[i].id == i)
    && (forall i :: 0 <= i < |albums| ==> ValidAccesstype(albums[i].accesstype))
    && (forall i :: 0 <= i < |albums| ==> NoDuplicates(albums[i].contributors) && NoDuplicates(albums[i].groups))
    && (forall i, k :: 0 <= i < |albums| && 0 <= k < |albums[i].groups| ==> albums[i].groups[k] < groupCount)
    && UniqueAlbumNames(albums)
  }

  predicate PhotosWellFormed(photos: seq<Photo>, albumCount: nat) {
    forall i :: 0 <= i < |photos| ==> photos[i].id == i && photos[i].album < albumCount
  }

  predicate GroupsWellFormed(groups: seq<FriendGroup>) {
    && (forall i :: 0 <= i < |groups| ==> groups[i].id == i)
    && UniqueGroupNames(groups)
  }
}
