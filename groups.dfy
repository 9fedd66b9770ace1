/** The group registry: named friend groups owned by one profile, their
    membership, and the queries over them. */
module Groups {
  import opened Models
  import opened Store
  import opened Friends

  /** is_in_group(group, profile). */
  predicate IsInGroup(g: FriendGroup, p: Profile) {
    p in g.members
  }

  /** The lookup get(owner=owner, name=name) finds a group. */
  predicate HasGroupNamed(gs: seq<FriendGroup>, owner: Profile, name: string) {
    exists i :: 0 <= i < |gs| && gs[i].owner == owner && gs[i].name == name
  }

  /** The guard of add_member: the two profiles are friends, or at least a request is pending. */
  predicate FriendOrPending(fs: seq<Friendship>, profile: Profile, actor: Option<Profile>) {
    actor.Some? && (AreFriends(fs, profile, actor.value, true) || AreFriends(fs, profile, actor.value, false))
  }

  /** The lookup get(owner=actor, id=groupid) finds a group. */
  predicate OwnsGroup(gs: seq<FriendGroup>, actor: Option<Profile>, groupid: nat) {
    groupid < |gs| && Some(gs[groupid].owner) == actor
  }

  /** The query filter(owner=owner): the groups of `owner`, in table order. */
  function OwnedGroups(gs: seq<FriendGroup>, owner: Profile): (r: seq<FriendGroup>)
    ensures |r| <= |gs|
    ensures forall g :: g in r <==> g in gs && g.owner == owner
    ensures multiset(r) <= multiset(gs)
  {
    if |gs| == 0 then []
    else
      var last := gs[|gs| - 1];
      assert gs == gs[..|gs| - 1] + [last];
      OwnedGroups(gs[..|gs| - 1], owner) + (if last.owner == owner then [last] else [])
  }

  /** return_groups(profile): the groups owned by `profile`, by default by the
      acting profile; None when neither is a profile. */
  function ReturnGroups(gs: seq<FriendGroup>, uprofile: Option<Profile>, profile: Option<Profile>): (r: Option<seq<FriendGroup>>)
    ensures r.None? <==> profile.None? && uprofile.None?
    ensures r.Some? ==>
      var target := if profile.Some? then profile else uprofile;
      forall g :: g in r.value <==> g in gs && Some(g.owner) == target
    ensures r.Some? ==> multiset(r.value) <= multiset(gs)
  {
    var target := if profile.None? then uprofile else profile;
    if target.None? then None else Some(OwnedGroups(gs, target.value))
  }

  /** return_group_from_id(id): the group with that primary key, or NotFound. */
  function ReturnGroupFromId(gs: seq<FriendGroup>, id: nat): (r: Result<FriendGroup>)
    ensures r.Err? <==> id >= |gs|
    ensures r.Err? ==> r.error == NotFound
    ensures r.Ok? ==> r.value in gs && r.value == gs[id]
  {
    if id < |gs| then Ok(gs[id]) else Err(NotFound)
  }

  /** A new group under a name its owner has not used keeps names unique per owner. */
  lemma CreateKeepsNamesUnique(gs: seq<FriendGroup>, owner: Profile, name: string)
    requires GroupsWellFormed(gs)
    requires !HasGroupNamed(gs, owner, name)
    ensures GroupsWellFormed(gs + [FriendGroup(|gs|, name, owner, {})])
  {
    var gs' := gs + [FriendGroup(|gs|, name, owner, {})];
    forall i, j | 0 <= i < j < |gs'| && gs'[i].owner == gs'[j].owner
      ensures gs'[i].name != gs'[j].name
    {
      assert gs'[i] == gs[i];
      if j == |gs| {
        assert gs[i].owner == owner;
      } else {
        assert gs'[j] == gs[j];
      }
    }
  }

  /** Changing one group's members keeps ids and names, so the registry stays well formed. */
  lemma MembersChangeKeepsWellFormed(gs: seq<FriendGroup>, k: nat, members: set<Profile>)
    requires GroupsWellFormed(gs)
    requires k < |gs|
    ensures GroupsWellFormed(gs[k := gs[k].(members := members)])
  {
    var gs' := gs[k := gs[k].(members := members)];
    assert forall i :: 0 <= i < |gs| ==> gs'[i].id == gs[i].id && gs'[i].name == gs[i].name && gs'[i].owner == gs[i].owner;
  }

  /** groupcontroller: the group operations of the acting profile `uprofile`. */
  class GroupController {
    const db: Db
    const uprofile: Option<Profile>

    constructor (db: Db, uprofile: Option<Profile>)
      ensures this.db == db && this.uprofile == uprofile
    {
      this.db := db;
      this.uprofile := uprofile;
    }

    /** create: a new, empty group of the acting profile, refused when the name is taken. */
    method Create(name: string) returns (r: Result<FriendGroup>)
      requires db.Valid() && uprofile.Some?
      modifies db
      ensures db.Valid()
      ensures old(HasGroupNamed(db.groups, uprofile.value, name)) ==>
        r == Err(AlreadyExists) && db.State() == old(db.State())
      ensures !old(HasGroupNamed(db.groups, uprofile.value, name)) ==>
        && r == Ok(FriendGroup(|old(db.groups)|, name, uprofile.value, {}))
        && db.State() == old(db.State()).(groups := old(db.groups) + [r.value])
    {
      if HasGroupNamed(db.groups, uprofile.value, name) {
        return Err(AlreadyExists);
      }
      var newgroup := FriendGroup(|db.groups|, name, uprofile.value, {});
      CreateKeepsNamesUnique(db.groups, uprofile.value, name);
      AlbumRefsGrow(db.albums, |db.groups|);
      db.groups := db.groups + [newgroup];
      return Ok(newgroup);
    }

    /** add_member: put `profile` into the acting profile's group `groupid`. Refused,
        with no change, unless the two are friends or a request is pending, the
        group belongs to the acting profile, and `profile` is not yet a member. */
    method AddMember(groupid: nat, profile: Profile) returns (ok: bool)
      requires db.Valid()
      modifies db
      ensures db.Valid()
      ensures ok <==>
        && old(FriendOrPending(db.friendships, profile, uprofile))
        && old(OwnsGroup(db.groups, uprofile, groupid))
        && !old(IsInGroup(db.groups[groupid], profile))
      ensures ok ==>
        var g := old(db.groups[groupid]);
        && db.State() == old(db.State()).(groups := old(db.groups)[groupid := g.(members := g.members + {profile})])
        && IsInGroup(db.groups[groupid], profile)
      ensures !ok ==> db.State() == old(db.State())
    {
      if !FriendOrPending(db.friendships, profile, uprofile) {
        return false;
      }
      if !OwnsGroup(db.groups, uprofile, groupid) {
        return false;
      }
      var group := db.groups[groupid];
      if IsInGroup(group, profile) {
        return false;
      }
      MembersChangeKeepsWellFormed(db.groups, groupid, group.members + {profile});
      db.groups := db.groups[groupid := group.(members := group.members + {profile})];
      return true;
    }
  }

  /** Album references to groups stay in range when the group table grows. */
  lemma AlbumRefsGrow(albums: seq<Album>, n: nat)
    requires AlbumsWellFormed(albums, n)
    ensures AlbumsWellFormed(albums, n + 1)
  {
  }
}
