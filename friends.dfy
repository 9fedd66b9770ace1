/** The friendship resolver: friend requests, their confirmation, and the
    friendship queries the album and group rules are built on. */
module Friends {
  import opened Models
  import opened Store

  /** are_friends(a, b, confirmed): some record joins `a` and `b`, in either
      direction, with exactly that `confirmed` flag. */
  predicate AreFriends(fs: seq<Friendship>, a: Profile, b: Profile, confirmed: bool) {
    exists i :: 0 <= i < |fs| && Between(fs[i], a, b) && fs[i].confirmed == confirmed
  }

  /** A record with this requester and this requestee exists, whatever its flag. */
  predicate HasRequest(fs: seq<Friendship>, requester: Profile, requestee: Profile) {
    exists i :: 0 <= i < |fs| && fs[i].requester == requester && fs[i].requestee == requestee
  }

  /** A record joins `a` and `b` in one direction or the other. */
  predicate RecordExists(fs: seq<Friendship>, a: Profile, b: Profile) {
    HasRequest(fs, a, b) || HasRequest(fs, b, a)
  }

  /** `f` is an unconfirmed request from `requester` to the profile `requestee`
      (no record matches an absent profile). */
  predicate IsOpenRequest(f: Friendship, requester: Profile, requestee: Option<Profile>) {
    f.requester == requester && Some(f.requestee) == requestee && !f.confirmed
  }

  /** The lookup get(requester=.., requestee=.., confirmed=False): the position
      of a matching record, or None for DoesNotExist. */
  function FindRequest(fs: seq<Friendship>, requester: Profile, requestee: Option<Profile>): (r: Option<nat>)
    ensures r.Some? ==> r.value < |fs| && IsOpenRequest(fs[r.value], requester, requestee)
    ensures r.None? ==> forall i :: 0 <= i < |fs| ==> !IsOpenRequest(fs[i], requester, requestee)
  {
    if |fs| == 0 then None
    else if IsOpenRequest(fs[|fs| - 1], requester, requestee) then Some(|fs| - 1)
    else FindRequest(fs[..|fs| - 1], requester, requestee)
  }

  /** return_pending_requests: the unconfirmed requests addressed to `actor`. */
  function PendingRequests(fs: seq<Friendship>, actor: Option<Profile>): (r: seq<Friendship>)
    ensures |r| <= |fs|
    ensures forall f :: f in r <==> f in fs && Some(f.requestee) == actor && !f.confirmed
    ensures multiset(r) <= multiset(fs)
  {
    if |fs| == 0 then []
    else
      var last := fs[|fs| - 1];
      assert fs == fs[..|fs| - 1] + [last];
      PendingRequests(fs[..|fs| - 1], actor) + (if Some(last.requestee) == actor && !last.confirmed then [last] else [])
  }

  /** Friendship is symmetric: the direction of the request does not matter. */
  lemma AreFriendsSymmetric(fs: seq<Friendship>, a: Profile, b: Profile, confirmed: bool)
    ensures AreFriends(fs, a, b, confirmed) <==> AreFriends(fs, b, a, confirmed)
  {
  }

  /** "Friends or at least pending" is the same as "some record joins the pair". */
  lemma FriendOrPendingIffRecord(fs: seq<Friendship>, a: Profile, b: Profile)
    ensures AreFriends(fs, a, b, true) || AreFriends(fs, a, b, false) <==> RecordExists(fs, a, b)
  {
    if RecordExists(fs, a, b) {
      var i :| 0 <= i < |fs| && Between(fs[i], a, b);
      assert AreFriends(fs, a, b, fs[i].confirmed);
    }
  }

  /** Appending a request between a pair with no record keeps one record per pair. */
  lemma AddKeepsAtMostOne(fs: seq<Friendship>, a: Profile, b: Profile)
    requires AtMostOnePerPair(fs)
    requires !RecordExists(fs, a, b)
    ensures AtMostOnePerPair(fs + [Friendship(a, b, false)])
  {
    var fs' := fs + [Friendship(a, b, false)];
    forall i, j | 0 <= i < j < |fs'|
      ensures !Between(fs'[j], fs'[i].requester, fs'[i].requestee)
    {
      if j == |fs| {
        assert fs'[i] == fs[i];
        assert !HasRequest(fs, a, b) && !HasRequest(fs, b, a);
        assert !Between(fs[i], a, b);
      } else {
        assert fs'[i] == fs[i] && fs'[j] == fs[j];
      }
    }
  }

  /** Setting one record's flag leaves the pairs, and so the invariant, as they were. */
  lemma ConfirmKeepsAtMostOne(fs: seq<Friendship>, k: nat)
    requires AtMostOnePerPair(fs)
    requires k < |fs|
    ensures AtMostOnePerPair(fs[k := fs[k].(confirmed := true)])
  {
    var fs' := fs[k := fs[k].(confirmed := true)];
    forall i, j | 0 <= i < j < |fs'|
      ensures !Between(fs'[j], fs'[i].requester, fs'[i].requestee)
    {
      assert fs'[i].requester == fs[i].requester && fs'[i].requestee == fs[i].requestee;
      assert fs'[j].requester == fs[j].requester && fs'[j].requestee == fs[j].requestee;
    }
  }

  /** Under the invariant, two records joining the same pair are the same record. */
  lemma OneRecordPerPair(fs: seq<Friendship>, a: Profile, b: Profile, i: nat, j: nat)
    requires AtMostOnePerPair(fs)
    requires i < |fs| && j < |fs|
    requires Between(fs[i], a, b) && Between(fs[j], a, b)
    ensures i == j
  {
    if i < j {
      assert false;
    } else if j < i {
      assert false;
    }
  }

  /** After a request from `a` to `b` has been stored, a request from `b` back to `a` is refused. */
  lemma AddThenReverseFails(fs: seq<Friendship>, a: Profile, b: Profile)
    ensures RecordExists(fs + [Friendship(a, b, false)], b, a)
  {
    var fs' := fs + [Friendship(a, b, false)];
    assert fs'[|fs|].requester == a && fs'[|fs|].requestee == b;
    assert HasRequest(fs', a, b);
  }

  /** Once a request has been confirmed, confirming it again finds nothing. */
  lemma SecondConfirmFails(fs: seq<Friendship>, requester: Profile, actor: Profile)
    requires AtMostOnePerPair(fs)
    requires FindRequest(fs, requester, Some(actor)).Some?
    ensures
      var k := FindRequest(fs, requester, Some(actor)).value;
      FindRequest(fs[k := fs[k].(confirmed := true)], requester, Some(actor)).None?
  {
    var k := FindRequest(fs, requester, Some(actor)).value;
    var fs' := fs[k := fs[k].(confirmed := true)];
    var r := FindRequest(fs', requester, Some(actor));
    if r.Some? {
      var j := r.value;
      assert j != k;
      assert fs'[j] == fs[j];
      OneRecordPerPair(fs, requester, actor, j, k);
      assert false;
    }
  }

  /** The sender of a request cannot confirm it: when `a` asked `b`, `a`
      confirming `b` finds no open request from `b` to `a`. */
  lemma RequesterCannotConfirm(fs: seq<Friendship>, k: nat)
    requires AtMostOnePerPair(fs)
    requires k < |fs| && fs[k].requester != fs[k].requestee
    ensures FindRequest(fs, fs[k].requestee, Some(fs[k].requester)).None?
  {
    var a, b := fs[k].requester, fs[k].requestee;
    var r := FindRequest(fs, b, Some(a));
    if r.Some? {
      var j := r.value;
      assert Between(fs[j], a, b) && Between(fs[k], a, b);
      OneRecordPerPair(fs, a, b, j, k);
      assert false;
    }
  }

  /** add does not refuse a request to oneself, and such a request is then
      open for its sender to confirm. */
  lemma SelfRequestIsOpen(fs: seq<Friendship>, p: Profile)
    ensures FindRequest(fs + [Friendship(p, p, false)], p, Some(p)) == Some(|fs|)
  {
  }

  /** friendcontroller: the friend-request operations of the acting profile `uprofile`. */
  class FriendController {
    const db: Db
    const uprofile: Option<Profile>

    constructor (db: Db, uprofile: Option<Profile>)
      ensures this.db == db && this.uprofile == uprofile
    {
      this.db := db;
      this.uprofile := uprofile;
    }

    /** add: send a friend request to `profile`, refused when any record joins the two. */
    method Add(profile: Profile) returns (r: Result<Friendship>)
      requires db.Valid() && uprofile.Some?
      modifies db
      ensures db.Valid()
      ensures old(RecordExists(db.friendships, uprofile.value, profile)) ==>
        r == Err(AlreadyExists) && db.State() == old(db.State())
      ensures !old(RecordExists(db.friendships, uprofile.value, profile)) ==>
        && r == Ok(Friendship(uprofile.value, profile, false))
        && db.State() == old(db.State()).(friendships := old(db.friendships) + [r.value])
    {
      var me := uprofile.value;
      if HasRequest(db.friendships, me, profile) {
        return Err(AlreadyExists);
      }
      if HasRequest(db.friendships, profile, me) {
        return Err(AlreadyExists);
      }
      var newfriendship := Friendship(me, profile, false);
      AddKeepsAtMostOne(db.friendships, me, profile);
      db.friendships := db.friendships + [newfriendship];
      return Ok(newfriendship);
    }

    /** confirm: accept the open request that `profile` sent to the acting profile. */
    method Confirm(profile: Profile) returns (ok: bool)
      requires db.Valid()
      modifies db
      ensures db.Valid()
      ensures ok <==> old(FindRequest(db.friendships, profile, uprofile)).Some?
      ensures ok ==>
        var k := old(FindRequest(db.friendships, profile, uprofile)).value;
        && db.State() == old(db.State()).(friendships := old(db.friendships)[k := Friendship(profile, uprofile.value, true)])
        && AreFriends(db.friendships, profile, uprofile.value, true)
      ensures !ok ==> db.State() == old(db.State())
    {
      var found := FindRequest(db.friendships, profile, uprofile);
      if found.None? {
        return false;
      }
      var k := found.value;
      var relation := db.friendships[k];
      // the lookup already matched both conditions that the source checks again here
      assert !relation.confirmed && Some(relation.requestee) == uprofile;
      ConfirmKeepsAtMostOne(db.friendships, k);
      db.friendships := db.friendships[k := relation.(confirmed := true)];
      assert Between(db.friendships[k], profile, uprofile.value);
      return true;
    }
  }
}
