/** The persistent store the controllers share: one table per model, the
    primary key of a row being its position, and a blob store for uploaded
    photo files keyed by their path. */
module Store {
  import opened Models

  /** A snapshot of every table, so that contracts can say "nothing else changes". */
  datatype Tables = Tables(
    albums: seq<Album>,
    photos: seq<Photo>,
    groups: seq<FriendGroup>,
    friendships: seq<Friendship>,
    files: map<string, seq<byte>>)

  class Db {
    var albums: seq<Album>
    var photos: seq<Photo>
    var groups: seq<FriendGroup>
    var friendships: seq<Friendship>
    var files: map<string, seq<byte>>

    ghost predicate Valid()
      reads this
    {
      && AlbumsWellFormed(albums, |groups|)
      && PhotosWellFormed(photos, |albums|)
      && GroupsWellFormed(groups)
      && AtMostOnePerPair(friendships)
    }

    function State(): Tables
      reads this
    {
      Tables(albums, photos, groups, friendships, files)
    }

    constructor ()
      ensures Valid()
      ensures State() == Tables([], [], [], [], map[])
    {
      albums, photos, groups, friendships, files := [], [], [], [], map[];
    }
  }
}
